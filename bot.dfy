/**
 * The `interactionCreate` handler for the `rugcheck` command: acknowledge the
 * command, fetch the report, then edit the acknowledgement once, either to a
 * fixed apology or to the report card.
 */
module Bot {
  import opened Wrappers
  import opened JsText
  import opened Api
  import opened Report
  import opened Card

  const Apology: string := "Sorry, an error occurred, please try again."

  /** The provisional reply sent before the report is fetched. */
  function Acknowledgement(tokenCA: string): string {
    "Checking token " + tokenCA + " for rug..."
  }

  /** Where a command interaction is in its life. */
  datatype Phase = Idle | Acknowledged | Resolved

  /** The content an acknowledgement is edited to. */
  datatype Edit = TextEdit(text: string) | EmbedEdit(embeds: seq<Embed>)

  /**
   * The edits the handler makes once `rugcheck` returned `out`: the apology
   * for the error marker, the card for a record, and none when `rugcheck`
   * returned nothing (reading `data.error` of `undefined` then throws).
   */
  function Resolution(out: Outcome, tokenCA: string, fmt: NumberText): (edits: seq<Edit>)
    ensures |edits| <= 1
    ensures edits == [] <==> out.NoResult?
    ensures edits == [TextEdit(Apology)] <==> out.ErrorMarker?
    ensures forall e :: e in edits && e.EmbedEdit? ==> out.Found? && e.embeds == [EmbedFor(out.report, tokenCA, fmt)]
    ensures out.Found? ==> edits == [EmbedEdit([EmbedFor(out.report, tokenCA, fmt)])]
  {
    match out
    case NoResult => []
    case ErrorMarker => [TextEdit(Apology)]
    case Found(r) => [EmbedEdit([EmbedFor(r, tokenCA, fmt)])]
  }

  /** A chat-input command interaction carrying the `token-ca` option. */
  class Interaction {
    const tokenCA: string
    var phase: Phase
    var acknowledgement: Option<string>
    var edits: seq<Edit>

    /** Idle before the reply, Acknowledged after it, Resolved once edited. */
    ghost predicate Valid()
      reads this
    {
      match phase
      case Idle => acknowledgement.None? && edits == []
      case Acknowledged => acknowledgement.Some? && edits == []
      case Resolved => acknowledgement.Some? && edits != []
    }

    constructor (tokenCA: string)
      ensures Valid() && phase == Idle
      ensures this.tokenCA == tokenCA && acknowledgement == None && edits == []
    {
      this.tokenCA := tokenCA;
      phase := Idle;
      acknowledgement := None;
      edits := [];
    }

    /** `interaction.reply(text)`: an interaction is replied to once; the model takes the reply as finished on return. */
    method Reply(text: string)
      requires Valid() && phase == Idle
      modifies this
      ensures Valid() && phase == Acknowledged
      ensures acknowledgement == Some(text) && edits == old(edits)
    {
      acknowledgement := Some(text);
      phase := Acknowledged;
    }

    /** `interaction.editReply(content)`: only a replied interaction can be edited. */
    method EditReply(content: Edit)
      requires Valid() && phase != Idle
      modifies this
      ensures Valid() && phase == Resolved
      ensures acknowledgement == old(acknowledgement) && edits == old(edits) + [content]
    {
      edits := edits + [content];
      phase := Resolved;
    }
  }

  /** The handler body for one `rugcheck` command, with the GET passed in as `get`. */
  method OnRugcheckCommand(interaction: Interaction, get: string -> Fetched, fmt: NumberText)
    requires interaction.Valid() && interaction.phase == Idle
    modifies interaction
    ensures interaction.Valid()
    ensures interaction.acknowledgement == Some(Acknowledgement(interaction.tokenCA))
    ensures interaction.edits ==
      Resolution(OutcomeOf(get(ReportUrl(interaction.tokenCA)), fmt), interaction.tokenCA, fmt)
    ensures interaction.phase == if interaction.edits == [] then Acknowledged else Resolved
  {
    var tokenCA := interaction.tokenCA;
    interaction.Reply(Acknowledgement(tokenCA));
    var data := Rugcheck(tokenCA, get, fmt);
    if data.NoResult? {
      return;
    }
    if data.ErrorMarker? {
      interaction.EditReply(TextEdit(Apology));
      return;
    }
    var holderString := BuildHolderString(data.report.holders);
    var embed := CardWith(data.report, tokenCA, holderString, fmt);
    interaction.EditReply(EmbedEdit([embed]));
  }

  /** A failed request and an incomplete body both end in the apology and no card. */
  lemma ApologyOnFailure(response: Fetched, tokenCA: string, fmt: NumberText)
    requires response.RequestFailed? || (response.status == 200 && !Complete(response.data))
    ensures Resolution(OutcomeOf(response, fmt), tokenCA, fmt) == [TextEdit(Apology)]
  {
  }

  /** A complete 200 response is answered with exactly one card, titled after its symbol. */
  lemma CardOnSuccess(response: Fetched, tokenCA: string, fmt: NumberText)
    requires response.Response? && response.status == 200 && Complete(response.data)
    ensures var edits := Resolution(OutcomeOf(response, fmt), tokenCA, fmt);
      && |edits| == 1 && edits[0].EmbedEdit? && |edits[0].embeds| == 1
      && SymbolOfTitle(edits[0].embeds[0].title) == Some(response.data.tokenMeta.value.symbol)
      && TokenOfUrl(edits[0].embeds[0].url) == Some(tokenCA)
  {
  }

  /** An example report body: token `ABC123`, symbol `FOO`, five holders, one risk, one AMM market. */
  function ExampleData(): RawReport {
    var holder := RawHolder("H", 1.0);
    RawReport(
      mint := "ABC123",
      token := Some(RawToken(None, 1000.0, 6, None)),
      tokenMeta := Some(RawTokenMeta("Foo", "FOO", false, None)),
      topHolders := [holder, holder, holder, holder, holder],
      risks := [RawRisk("Low Liquidity", "...", 10.0, "warn")],
      fileMeta := Some(RawFileMeta(None)),
      rugged := false,
      markets := [RawMarket("amm", Some(RawLp(95.5)))])
  }

  /** The market text for any record with the example's market type and LP share. */
  lemma ExampleMarketText(rep: TokenReport, fmt: NumberText)
    requires rep.marketType == "amm" && rep.lpLocked == 95.5
    ensures MarketInformation(rep, fmt) == "**Market Type**: amm\n**LP Locked**: " + fmt.show(95.5) + "%"
  {
    var l1, l2 := "**Market Type**: " + rep.marketType, "**LP Locked**: " + fmt.show(95.5) + "%";
    assert [l1, l2][1..] == [l2];
    assert JoinLines([l2]) == l2;
    assert MarketInformation(rep, fmt) == l1 + "\n" + l2;
    assert l1 + "\n" + l2 == "**Market Type**: amm\n**LP Locked**: " + fmt.show(95.5) + "%";
  }

  /** The example report is extracted; its card is titled `Rugcheck (FOO)` and shows the LP share without `toFixed(2)`. */
  lemma ExampleReport(fmt: NumberText)
    ensures OutcomeOf(Response(200, ExampleData()), fmt).Found?
    ensures var e := EmbedFor(OutcomeOf(Response(200, ExampleData()), fmt).report, "ABC123", fmt);
      && e.title == "Rugcheck (FOO)"
      && e.fields[3].value == "**Market Type**: amm\n**LP Locked**: " + fmt.show(95.5) + "%"
  {
    assert Complete(ExampleData());
    var rep := OutcomeOf(Response(200, ExampleData()), fmt).report;
    var e := CardWith(rep, "ABC123", HolderText(rep.holders), fmt);
    assert EmbedFor(rep, "ABC123", fmt) == e;
    assert e.title == TitleOpen + "FOO" + ")";
    ExampleMarketText(rep, fmt);
  }
}
