/**
 * `rugcheck(tokenCA)`: fetch the token report and normalize it into a flat
 * record with the first five holders, the first risk and the first market.
 * Every exception the extraction can raise is caught and becomes the marker
 * `{error: true}`; a non-200 status returns nothing at all.
 */
module Report {
  import opened Wrappers
  import opened JsText
  import opened Api

  const ApiBase: string := "https://api.rugcheck.xyz/v1/tokens/"
  const ReportPath: string := "/report"

  /** Owner address of the Raydium liquidity-pool authority. */
  const RaydiumPool: string := "5Q544fKrFoe6tsEbD7S8EmxGTJYAKtTVhAW5Q5pge4j1"
  /** The name shown instead of `RaydiumPool`. */
  const RaydiumAlias: string := "Raydium"
  /** How many entries of `topHolders` are read. */
  const HolderCount: nat := 5

  /** A holder line of the record: address (or alias) and `toFixed(2)` share. */
  datatype Holder = Holder(addy: string, amount: string)

  /** The normalized record `rugcheck` returns on success. */
  datatype TokenReport = TokenReport(
    mint: string,
    mintAuthority: Option<string>,
    supply: real,
    decimals: int,
    freezeAuthority: Option<string>,
    name: string,
    symbol: string,
    mutable: bool,
    updateAuthority: Option<string>,
    holders: seq<Holder>,
    riskName: string,
    riskDescription: string,
    riskScore: real,
    riskLevel: string,
    image: Option<string>,
    rugged: bool,
    marketType: string,
    lpLocked: real
  )

  /**
   * Why the extraction threw: the first dereference of an absent object or
   * out-of-range index, in the order the code performs them.
   */
  datatype Fault = NoToken | NoTokenMeta | TooFewHolders | NoRisk | NoFileMeta | NoMarket | NoLp

  /** The three things `rugcheck` can return. */
  datatype Outcome =
    | Found(report: TokenReport)  // the record
    | ErrorMarker                 // `{error: true}` from the catch
    | NoResult                    // bare `return` on a non-200 status

  /** The URL the report is requested from. */
  function ReportUrl(tokenCA: string): string {
    ApiBase + tokenCA + ReportPath
  }

  /** Two different token addresses are never looked up at the same URL. */
  lemma ReportUrlInjective(a: string, b: string)
    requires ReportUrl(a) == ReportUrl(b)
    ensures a == b
  {
    var u := ReportUrl(a);
    assert |a| == |b|;
    assert u[|ApiBase|..|ApiBase| + |a|] == a;
    assert u[|ApiBase|..|ApiBase| + |b|] == b;
  }

  /** One holder: the pool address is relabelled, every other owner kept as is. */
  function HolderOf(raw: RawHolder, fmt: NumberText): (h: Holder)
    ensures h.addy == raw.owner || (raw.owner == RaydiumPool && h.addy == RaydiumAlias)
    ensures h.addy != RaydiumPool
    ensures h.amount == fmt.fixed2(raw.pct)
  {
    var holderAddy := if raw.owner == RaydiumPool then RaydiumAlias else raw.owner;
    Holder(holderAddy, fmt.fixed2(raw.pct))
  }

  /** Two owners shown under the same name are equal, or are the pool and an owner literally named like its alias. */
  lemma HolderAddressesDistinct(a: RawHolder, b: RawHolder, fmt: NumberText)
    requires HolderOf(a, fmt).addy == HolderOf(b, fmt).addy
    ensures a.owner == b.owner || {a.owner, b.owner} == {RaydiumPool, RaydiumAlias}
  {
  }

  /** The holder list built from a list of raw entries, position by position. */
  function Holders(raws: seq<RawHolder>, fmt: NumberText): (hs: seq<Holder>)
    ensures |hs| == |raws|
    ensures forall i :: 0 <= i < |raws| ==> hs[i] == HolderOf(raws[i], fmt)
  {
    if raws == [] then [] else [HolderOf(raws[0], fmt)] + Holders(raws[1..], fmt)
  }

  /** The first five holders, or the fault of indexing past the end of a shorter list. */
  function TopHolders(topHolders: seq<RawHolder>, fmt: NumberText): (r: Result<seq<Holder>, Fault>)
    ensures r.Ok? <==> |topHolders| >= HolderCount
    ensures r.Err? ==> r.error == TooFewHolders
    ensures r.Ok? ==> |r.value| == HolderCount
    ensures r.Ok? ==> forall i :: 0 <= i < HolderCount ==> r.value[i] == HolderOf(topHolders[i], fmt)
  {
    if |topHolders| < HolderCount then Err(TooFewHolders)
    else Ok(Holders(topHolders[..HolderCount], fmt))
  }

  /** The holder loop: reads entries 0 to 4 in order and fails on the first missing one. */
  method CollectHolders(topHolders: seq<RawHolder>, fmt: NumberText) returns (r: Result<seq<Holder>, Fault>)
    ensures r == TopHolders(topHolders, fmt)
  {
    var holders: seq<Holder> := [];
    for i := 0 to HolderCount
      invariant i <= |topHolders|
      invariant |holders| == i
      invariant forall j :: 0 <= j < i ==> holders[j] == HolderOf(topHolders[j], fmt)
    {
      if i >= |topHolders| {
        return Err(TooFewHolders);
      }
      var holderAddy := topHolders[i].owner;
      if holderAddy == RaydiumPool {
        holderAddy := RaydiumAlias;
      }
      var holderAmount := fmt.fixed2(topHolders[i].pct);
      assert Holder(holderAddy, holderAmount) == HolderOf(topHolders[i], fmt);
      holders := holders + [Holder(holderAddy, holderAmount)];
    }
    assert holders == Holders(topHolders[..HolderCount], fmt);
    return Ok(holders);
  }

  /** Everything the extraction dereferences is there. */
  predicate Complete(data: RawReport) {
    && data.token.Some?
    && data.tokenMeta.Some?
    && |data.topHolders| >= HolderCount
    && |data.risks| > 0
    && data.fileMeta.Some?
    && |data.markets| > 0
    && data.markets[0].lp.Some?
  }

  /** `rep` is the record built from `data`: each field from the entry the code reads it from. */
  predicate Normalizes(data: RawReport, fmt: NumberText, rep: TokenReport)
    requires Complete(data)
  {
    var token, meta := data.token.value, data.tokenMeta.value;
    var risk, market := data.risks[0], data.markets[0];
    && rep.mint == data.mint
    && rep.mintAuthority == token.mintAuthority
    && rep.supply == token.supply
    && rep.decimals == token.decimals
    && rep.freezeAuthority == token.freezeAuthority
    && rep.name == meta.name
    && rep.symbol == meta.symbol
    && rep.mutable == meta.mutable
    && rep.updateAuthority == meta.updateAuthority
    && |rep.holders| == HolderCount
    && (forall i :: 0 <= i < HolderCount ==> rep.holders[i] == HolderOf(data.topHolders[i], fmt))
    && rep.riskName == risk.name
    && rep.riskDescription == risk.description
    && rep.riskScore == risk.score
    && rep.riskLevel == risk.level
    && rep.image == data.fileMeta.value.image
    && rep.rugged == data.rugged
    && rep.marketType == market.marketType
    && rep.lpLocked == market.lp.value.lpLockedPct
  }

  /**
   * The field plucking after the holder loop has run, in the order the code
   * dereferences: `token`, `tokenMeta`, the holders, `risks[0]`, `fileMeta`,
   * `markets[0]`, `markets[0].lp`.
   */
  function Assemble(data: RawReport, holders: Result<seq<Holder>, Fault>): Result<TokenReport, Fault> {
    if data.token.None? then Err(NoToken)
    else if data.tokenMeta.None? then Err(NoTokenMeta)
    else if holders.Err? then Err(holders.error)
    else if |data.risks| == 0 then Err(NoRisk)
    else if data.fileMeta.None? then Err(NoFileMeta)
    else if |data.markets| == 0 then Err(NoMarket)
    else if data.markets[0].lp.None? then Err(NoLp)
    else
      var token, meta := data.token.value, data.tokenMeta.value;
      var risk, market := data.risks[0], data.markets[0];
      Ok(TokenReport(
        mint := data.mint,
        mintAuthority := token.mintAuthority,
        supply := token.supply,
        decimals := token.decimals,
        freezeAuthority := token.freezeAuthority,
        name := meta.name,
        symbol := meta.symbol,
        mutable := meta.mutable,
        updateAuthority := meta.updateAuthority,
        holders := holders.value,
        riskName := risk.name,
        riskDescription := risk.description,
        riskScore := risk.score,
        riskLevel := risk.level,
        image := data.fileMeta.value.image,
        rugged := data.rugged,
        marketType := market.marketType,
        lpLocked := market.lp.value.lpLockedPct))
  }

  /** The extraction of a 200 response body: all or nothing. */
  function Extract(data: RawReport, fmt: NumberText): (r: Result<TokenReport, Fault>)
    ensures r.Ok? <==> Complete(data)
    ensures r.Ok? ==> Normalizes(data, fmt, r.value)
  {
    Assemble(data, TopHolders(data.topHolders, fmt))
  }

  /** `data` with every list cut to the entries the extraction can read. */
  function Trimmed(data: RawReport): RawReport {
    data.(
      topHolders := if |data.topHolders| < HolderCount then data.topHolders else data.topHolders[..HolderCount],
      risks := if |data.risks| < 1 then data.risks else data.risks[..1],
      markets := if |data.markets| < 1 then data.markets else data.markets[..1])
  }

  /** Holders after the fifth, risks after the first and markets after the first never matter. */
  lemma LaterEntriesIgnored(data: RawReport, fmt: NumberText)
    ensures Extract(Trimmed(data), fmt) == Extract(data, fmt)
  {
    var t := Trimmed(data);
    if |data.topHolders| >= HolderCount {
      assert t.topHolders[..HolderCount] == data.topHolders[..HolderCount];
    }
    if |data.markets| > 0 {
      assert t.markets[0] == data.markets[0];
    }
    if |data.risks| > 0 {
      assert t.risks[0] == data.risks[0];
    }
  }

  /** What `rugcheck` returns for the response it received. */
  function OutcomeOf(response: Fetched, fmt: NumberText): (out: Outcome)
    ensures out.NoResult? <==> response.Response? && response.status != 200
    ensures out.ErrorMarker? <==>
      response.RequestFailed? || (response.status == 200 && !Complete(response.data))
    ensures out.Found? ==> response.Response? && response.status == 200 && Complete(response.data)
    ensures out.Found? ==> Normalizes(response.data, fmt, out.report)
  {
    match response
    case RequestFailed => ErrorMarker
    case Response(status, data) =>
      if status != 200 then NoResult
      else match Extract(data, fmt)
        case Ok(rep) => Found(rep)
        case Err(_) => ErrorMarker
  }

  /** `rugcheck(tokenCA)`, with the GET passed in as `get`. */
  method Rugcheck(tokenCA: string, get: string -> Fetched, fmt: NumberText) returns (out: Outcome)
    ensures out == OutcomeOf(get(ReportUrl(tokenCA)), fmt)
  {
    var url := ReportUrl(tokenCA);
    var response := get(url);
    if response.RequestFailed? {
      return ErrorMarker;
    }
    if response.status != 200 {
      return NoResult;
    }
    var holders := CollectHolders(response.data.topHolders, fmt);
    var extracted := Assemble(response.data, holders);
    if extracted.Err? {
      return ErrorMarker;
    }
    return Found(extracted.value);
  }
}
