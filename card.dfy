/**
 * The reply card the bot builds from a report record: a colored embed with a
 * title, a link to the block explorer, a thumbnail, a footer and four named
 * text fields in fixed order.
 */
module Card {
  import opened Wrappers
  import opened JsText
  import opened Report

  const EmbedColor: int := 0x0099ff
  const TitleOpen: string := "Rugcheck ("
  const SolscanBase: string := "https://solscan.io/token/"
  const Footer: string := "Stay Safe. WAGMI"

  const TokenInformationName: string := "**Token Information**"
  const TopHoldersName: string := "**Top Holders**"
  const RisksName: string := "**Risks**"
  const MarketInformationName: string := "**Market Information**"

  datatype Field = Field(name: string, value: string)

  datatype Embed = Embed(
    color: int,
    title: string,
    url: string,
    thumbnail: Option<string>,
    footer: string,
    fields: seq<Field>
  )

  // ---------------------------------------------------------------------------
  // The Top Holders text

  /** A holder line without its terminating newline. */
  function LineBody(h: Holder): string {
    h.addy + " - " + h.amount + "%"
  }

  /** The holder line the loop appends. */
  function Line(h: Holder): string {
    LineBody(h) + "\n"
  }

  /** The lines of all holders, in order. */
  function HolderText(hs: seq<Holder>): string {
    if hs == [] then "" else Line(hs[0]) + HolderText(hs[1..])
  }

  /** Appending one holder appends exactly its line. */
  lemma {:induction false} HolderTextAppend(hs: seq<Holder>, h: Holder)
    ensures HolderText(hs + [h]) == HolderText(hs) + Line(h)
  {
    if hs == [] {
      assert hs + [h] == [h];
    } else {
      assert (hs + [h])[1..] == hs[1..] + [h];
      HolderTextAppend(hs[1..], h);
    }
  }

  /** The loop that accumulates `holderString`. */
  method BuildHolderString(holders: seq<Holder>) returns (holderString: string)
    ensures holderString == HolderText(holders)
  {
    holderString := "";
    for i := 0 to |holders|
      invariant holderString == HolderText(holders[..i])
    {
      assert holders[..i + 1] == holders[..i] + [holders[i]];
      HolderTextAppend(holders[..i], holders[i]);
      holderString := holderString + Line(holders[i]);
    }
    assert holders[..|holders|] == holders;
  }

  /** Neither the address nor the amount of `h` breaks a line. */
  predicate SingleLine(h: Holder) {
    '\n' !in h.addy && '\n' !in h.amount
  }

  /** Number of occurrences of `c` in `s`. */
  function Occurrences(s: string, c: char): nat {
    if s == [] then 0 else (if s[0] == c then 1 else 0) + Occurrences(s[1..], c)
  }

  lemma {:induction false} OccurrencesConcat(a: string, b: string, c: char)
    ensures Occurrences(a + b, c) == Occurrences(a, c) + Occurrences(b, c)
  {
    if a == [] {
      assert a + b == b;
    } else {
      assert (a + b)[1..] == a[1..] + b;
      OccurrencesConcat(a[1..], b, c);
    }
  }

  lemma {:induction false} OccurrencesAbsent(s: string, c: char)
    requires c !in s
    ensures Occurrences(s, c) == 0
  {
    if s != [] {
      assert c !in s[1..];
      OccurrencesAbsent(s[1..], c);
    }
  }

  lemma LineBodySingle(h: Holder)
    requires SingleLine(h)
    ensures '\n' !in LineBody(h)
  {
  }

  /** The Top Holders text holds exactly one newline per holder. */
  lemma {:induction false} HolderTextNewlines(hs: seq<Holder>)
    requires forall i :: 0 <= i < |hs| ==> SingleLine(hs[i])
    ensures Occurrences(HolderText(hs), '\n') == |hs|
  {
    if hs != [] {
      LineBodySingle(hs[0]);
      OccurrencesAbsent(LineBody(hs[0]), '\n');
      OccurrencesConcat(LineBody(hs[0]), "\n", '\n');
      OccurrencesConcat(Line(hs[0]), HolderText(hs[1..]), '\n');
      HolderTextNewlines(hs[1..]);
    }
  }

  /** Index of the first newline in `s`, or `|s|` when there is none. */
  function FirstNewline(s: string): (k: nat)
    ensures k <= |s|
    ensures forall j :: 0 <= j < k ==> s[j] != '\n'
    ensures k < |s| ==> s[k] == '\n'
  {
    if s == [] || s[0] == '\n' then 0 else 1 + FirstNewline(s[1..])
  }

  /** Cuts `s` into its lines; a final newline does not open an empty line. */
  function SplitLines(s: string): seq<string>
    decreases |s|
  {
    if s == [] then []
    else
      var k := FirstNewline(s);
      if k == |s| then [s] else [s[..k]] + SplitLines(s[k + 1..])
  }

  lemma SplitFirstLine(body: string, rest: string)
    requires '\n' !in body
    ensures SplitLines(body + "\n" + rest) == [body] + SplitLines(rest)
  {
    var s := body + "\n" + rest;
    var k := FirstNewline(s);
    assert s[|body|] == '\n';
    assert k == |body|;
    assert s[..k] == body;
    assert s[k + 1..] == rest;
  }

  /** Splitting the Top Holders text into lines gives back one line per holder, in order. */
  lemma {:induction false} HolderTextLines(hs: seq<Holder>)
    requires forall i :: 0 <= i < |hs| ==> SingleLine(hs[i])
    ensures |SplitLines(HolderText(hs))| == |hs|
    ensures forall i :: 0 <= i < |hs| ==> SplitLines(HolderText(hs))[i] == LineBody(hs[i])
  {
    if hs != [] {
      LineBodySingle(hs[0]);
      SplitFirstLine(LineBody(hs[0]), HolderText(hs[1..]));
      HolderTextLines(hs[1..]);
      var lines := SplitLines(HolderText(hs));
      assert lines == [LineBody(hs[0])] + SplitLines(HolderText(hs[1..]));
      forall i | 0 <= i < |hs|
        ensures lines[i] == LineBody(hs[i])
      {
        if i > 0 {
          assert lines[i] == SplitLines(HolderText(hs[1..]))[i - 1];
        }
      }
    }
  }

  // ---------------------------------------------------------------------------
  // The embed

  /** The title's symbol, when `title` has the shape `Rugcheck (<symbol>)`. */
  function SymbolOfTitle(title: string): Option<string> {
    if |title| > |TitleOpen| && title[..|TitleOpen|] == TitleOpen && title[|title| - 1] == ')'
    then Some(title[|TitleOpen|..|title| - 1])
    else None
  }

  /** The token address, when `url` is a block-explorer token link. */
  function TokenOfUrl(url: string): Option<string> {
    if |url| >= |SolscanBase| && url[..|SolscanBase|] == SolscanBase
    then Some(url[|SolscanBase|..])
    else None
  }

  /** `lines` joined by newlines, as one template literal with `\n` between its lines. */
  function JoinLines(lines: seq<string>): string {
    if |lines| == 0 then ""
    else if |lines| == 1 then lines[0]
    else lines[0] + "\n" + JoinLines(lines[1..])
  }

  /** Splitting joined lines gives them back, when none holds a newline and the last is not empty. */
  lemma {:induction false} JoinLinesSplit(lines: seq<string>)
    requires |lines| > 0 && lines[|lines| - 1] != []
    requires forall i :: 0 <= i < |lines| ==> '\n' !in lines[i]
    ensures SplitLines(JoinLines(lines)) == lines
  {
    if |lines| == 1 {
      var s := lines[0];
      assert FirstNewline(s) == |s|;
    } else {
      SplitFirstLine(lines[0], JoinLines(lines[1..]));
      JoinLinesSplit(lines[1..]);
      assert lines == [lines[0]] + lines[1..];
    }
  }

  /** The Token Information template: name, symbol, the three authorities and mutability. */
  function TokenInformation(r: TokenReport): string {
    JoinLines([
      "**Name**: " + r.name,
      "**Symbol**: " + r.symbol,
      "**Mint Authority**: " + ShowNullable(r.mintAuthority),
      "**Freeze Authority**: " + ShowNullable(r.freezeAuthority),
      "**Mutable**: " + ShowBool(r.mutable),
      "**Update Authority**: " + ShowNullable(r.updateAuthority)])
  }

  /** The Token Information text reads back as its six labelled lines, in order. */
  lemma TokenInformationLines(r: TokenReport)
    requires '\n' !in r.name && '\n' !in r.symbol
    requires '\n' !in ShowNullable(r.mintAuthority) && '\n' !in ShowNullable(r.freezeAuthority)
    requires '\n' !in ShowNullable(r.updateAuthority)
    ensures SplitLines(TokenInformation(r)) == [
      "**Name**: " + r.name,
      "**Symbol**: " + r.symbol,
      "**Mint Authority**: " + ShowNullable(r.mintAuthority),
      "**Freeze Authority**: " + ShowNullable(r.freezeAuthority),
      "**Mutable**: " + ShowBool(r.mutable),
      "**Update Authority**: " + ShowNullable(r.updateAuthority)]
  {
    JoinLinesSplit([
      "**Name**: " + r.name,
      "**Symbol**: " + r.symbol,
      "**Mint Authority**: " + ShowNullable(r.mintAuthority),
      "**Freeze Authority**: " + ShowNullable(r.freezeAuthority),
      "**Mutable**: " + ShowBool(r.mutable),
      "**Update Authority**: " + ShowNullable(r.updateAuthority)]);
  }

  /** The Risks template: name, description, score and level of the first risk. */
  function RiskInformation(r: TokenReport, fmt: NumberText): string {
    JoinLines([
      "**Risk Name**: " + r.riskName,
      "**Risk Description**: " + r.riskDescription,
      "**Risk Score**: " + fmt.show(r.riskScore),
      "**Risk Level**: " + r.riskLevel])
  }

  /** The Risks text reads back as its four labelled lines, in order. */
  lemma RiskInformationLines(r: TokenReport, fmt: NumberText)
    requires '\n' !in r.riskName && '\n' !in r.riskDescription
    requires '\n' !in fmt.show(r.riskScore) && '\n' !in r.riskLevel
    ensures SplitLines(RiskInformation(r, fmt)) == [
      "**Risk Name**: " + r.riskName,
      "**Risk Description**: " + r.riskDescription,
      "**Risk Score**: " + fmt.show(r.riskScore),
      "**Risk Level**: " + r.riskLevel]
  {
    JoinLinesSplit([
      "**Risk Name**: " + r.riskName,
      "**Risk Description**: " + r.riskDescription,
      "**Risk Score**: " + fmt.show(r.riskScore),
      "**Risk Level**: " + r.riskLevel]);
  }

  /** The Market Information template; the LP share is interpolated as a plain number, not through `toFixed(2)`. */
  function MarketInformation(r: TokenReport, fmt: NumberText): string {
    JoinLines([
      "**Market Type**: " + r.marketType,
      "**LP Locked**: " + fmt.show(r.lpLocked) + "%"])
  }

  /** The Market Information text reads back as its two labelled lines, in order. */
  lemma MarketInformationLines(r: TokenReport, fmt: NumberText)
    requires '\n' !in r.marketType && '\n' !in fmt.show(r.lpLocked)
    ensures SplitLines(MarketInformation(r, fmt)) == [
      "**Market Type**: " + r.marketType,
      "**LP Locked**: " + fmt.show(r.lpLocked) + "%"]
  {
    JoinLinesSplit([
      "**Market Type**: " + r.marketType,
      "**LP Locked**: " + fmt.show(r.lpLocked) + "%"]);
  }

  /** The embed literal, given the already accumulated holder text. */
  function CardWith(r: TokenReport, tokenCA: string, holderString: string, fmt: NumberText): Embed {
    Embed(
      color := EmbedColor,
      title := TitleOpen + r.symbol + ")",
      url := SolscanBase + tokenCA,
      thumbnail := r.image,
      footer := Footer,
      fields := [
        Field(TokenInformationName, TokenInformation(r)),
        Field(TopHoldersName, holderString),
        Field(RisksName, RiskInformation(r, fmt)),
        Field(MarketInformationName, MarketInformation(r, fmt))
      ])
  }

  /** The card for report `r` about token `tokenCA`. */
  function EmbedFor(r: TokenReport, tokenCA: string, fmt: NumberText): (e: Embed)
    ensures SymbolOfTitle(e.title) == Some(r.symbol)
    ensures TokenOfUrl(e.url) == Some(tokenCA)
    ensures e.color == EmbedColor && e.footer == Footer && e.thumbnail == r.image
    ensures |e.fields| == 4
    ensures e.fields[0] == Field(TokenInformationName, TokenInformation(r))
    ensures e.fields[1] == Field(TopHoldersName, HolderText(r.holders))
    ensures e.fields[2] == Field(RisksName, RiskInformation(r, fmt))
    ensures e.fields[3] == Field(MarketInformationName, MarketInformation(r, fmt))
  {
    var e := CardWith(r, tokenCA, HolderText(r.holders), fmt);
    assert e.title[..|TitleOpen|] == TitleOpen;
    assert e.title[|TitleOpen|..|e.title| - 1] == r.symbol;
    assert e.url[..|SolscanBase|] == SolscanBase;
    assert e.url[|SolscanBase|..] == tokenCA;
    e
  }

  /** Every holder of the record is on the card under its own line, in record order. */
  lemma CardListsHolders(r: TokenReport, tokenCA: string, fmt: NumberText)
    requires forall i :: 0 <= i < |r.holders| ==> SingleLine(r.holders[i])
    ensures |SplitLines(EmbedFor(r, tokenCA, fmt).fields[1].value)| == |r.holders|
    ensures forall i :: 0 <= i < |r.holders| ==>
      SplitLines(EmbedFor(r, tokenCA, fmt).fields[1].value)[i] == LineBody(r.holders[i])
  {
    HolderTextLines(r.holders);
  }
}
