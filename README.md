# RugCheck bot: report extraction, reply card and reply decision

This project models the core of a Discord bot with one slash command, `rugcheck`.
The command takes a Solana token address (`token-ca`). The bot fetches the
token's RugCheck report and answers with a summary card. The model covers three parts:

- **Report extraction** (`Report`, report.dfy): this is `rugcheck(tokenCA)`. It takes the
  response to `GET https://api.rugcheck.xyz/v1/tokens/<tokenCA>/report` and returns one of three things:
  - a normalized record with the first five holders, the first risk and the first market;
  - the error marker `{error: true}`, when anything the code dereferences is missing;
  - nothing, when the client resolves with a status other than 200.

  The holder loop is a method with a loop invariant, proved equal to the function
  `TopHolders`. The field plucking and the record literal are functions.
  `Fault` names the dereference that would throw first, in the code's order. The
  outcome collapses every fault to the error marker, as the code does.
- **Card construction** (`Card`, card.dfy): the embed literal of the `interactionCreate`
  handler. The Top Holders text is built by a method whose loop accumulates one
  `"<addy> - <amount>%\n"` line per holder. It is proved equal to the function `HolderText`.
  Lemmas show that this text has one newline per holder and that splitting it into
  lines gives back the holders in order. The Token Information, Risks and Market Information
  templates are lines joined by newlines, and each is proved to split back into its labelled lines.
- **Reply decision** (`Bot`, bot.dfy): the handler is a method on an `Interaction`
  object whose phase goes Idle → Acknowledged → Resolved. The object records the
  acknowledgement and the list of edits. An error marker leads to the fixed
  apology. A record leads to one edit carrying the card.

Supporting modules:
- `Wrappers` (wrappers.dfy): `Option` and `Result`.
- `JsText` (jstext.dfy): how JavaScript values are rendered as text.
- `Api` (api.dfy): the response shape. Nested objects are `Option`s, and lists are sequences.

Number formatting is floating-point formatting: `toFixed(2)` and the default
number-to-string conversion inside template literals. It enters as a parameter
(`NumberText`), a pair of functions. Every property holds whatever those functions return.
Booleans and `null` are rendered as JavaScript renders them (`true`/`false`, `null`).
The HTTP GET also enters as a parameter (`get: string -> Fetched`). A request error
thrown by the client is `RequestFailed`.

Two behaviours of main.js that the model keeps as written:
- A status the HTTP client resolves with, other than 200, makes `rugcheck` return `undefined` (main.js:22-24).
  With the client's default status check (main.js:9), only 2xx statuses resolve, so this is, e.g., a 204.
  A 4xx or 5xx response makes the GET throw. It is `RequestFailed` in the model and ends in the error marker (main.js:89-92).
  After an `undefined` result the handler reads `data.error` of `undefined` and throws, so no edit is made.
  In the model this is `NoResult`, and `Resolution` gives no edit for it.
- The LP Locked line interpolates the raw number (main.js:173), not through `toFixed(2)`.
  So for an LP share of 95.5 it reads `**LP Locked**: ` followed by show(95.5) and `%` (`Bot.ExampleMarketText`).

## Model

| member | source | states |
|---|---|---|
| Report.ReportUrlInjective | main.js:17 | the report URL determines the token address, so two tokens never query the same URL |
| Report.HolderOf | main.js:42-48 | a holder's address is the raw owner, except that the pool address becomes `Raydium`; the raw pool address is never shown; the amount is `toFixed(2)` of `pct` |
| Report.HolderAddressesDistinct | main.js:42-45 | two owners shown under the same name are equal, or are the pool address and an owner literally named `Raydium` |
| Report.Holders | main.js:39-49 | the holder list has one entry per raw entry, and entry i is derived from raw entry i |
| Report.TopHolders | main.js:39-49 | succeeds exactly when there are at least 5 entries; then it holds exactly 5 holders, holder i from `topHolders[i]`; otherwise it fails with the out-of-range fault |
| Report.CollectHolders | main.js:39-49 | the loop reading entries 0..4 computes `TopHolders`, failing at the first missing entry |
| Report.Extract | main.js:28-87 | succeeds exactly when `token`, `tokenMeta`, `fileMeta`, `markets[0].lp`, 5 holders, a risk and a market are present; a success holds every field from the entry it is read from (risk only from `risks[0]`, market only from `markets[0]`) |
| Report.LaterEntriesIgnored | main.js:39-66 | cutting the holder list to 5 and the risk and market lists to 1 entry never changes the extraction |
| Report.OutcomeOf | main.js:14-93 | a resolved response with a status other than 200 gives no result; a thrown request (including a 4xx or 5xx the client rejects) or an incomplete body gives the error marker; otherwise the record, normalized from the body |
| Report.Rugcheck | main.js:14-93 | `rugcheck(tokenCA)` returns `OutcomeOf` of the response to the token's report URL |
| Card.HolderTextAppend | main.js:143-146 | appending a holder appends exactly its line, so the accumulating loop builds the in-order text |
| Card.BuildHolderString | main.js:143-146 | the loop's `holderString` is the in-order concatenation of the holder lines |
| Card.HolderTextNewlines | main.js:143-146 | the Top Holders text contains exactly as many newlines as there are holders (no address or amount containing a newline) |
| Card.HolderTextLines | main.js:143-146 | splitting the Top Holders text at newlines gives back one `<addy> - <amount>%` line per holder, in order |
| Card.EmbedFor | main.js:148-177 | the title is `Rugcheck (<symbol>)` and yields the symbol back; the URL is the block-explorer link that yields the token address back; color 0x0099ff, footer `Stay Safe. WAGMI`, thumbnail the image; exactly four fields, in order: Token Information with the token text, Top Holders with the holder text, Risks with the risk text, Market Information with the market text |
| Card.CardListsHolders | main.js:143-166 | every holder of the record appears on the card as its own line, in record order |
| Card.JoinLinesSplit | main.js:161-173 | the multi-line templates are lines joined by newlines; splitting the joined text gives the lines back, when none contains a newline and the last is not empty |
| Card.TokenInformationLines | main.js:161 | the Token Information text reads back as six labelled lines in order: Name, Symbol, Mint Authority, Freeze Authority, Mutable, Update Authority, with `null` for an absent authority and `true`/`false` for mutability |
| Card.RiskInformationLines | main.js:169 | the Risks text reads back as four labelled lines in order: Risk Name, Risk Description, Risk Score, Risk Level |
| Card.MarketInformationLines | main.js:173 | the Market Information text reads back as two labelled lines, Market Type and LP Locked, with the raw LP number followed by `%` |
| Bot.Resolution | main.js:119-123 | at most one edit; no edit exactly when `rugcheck` returned nothing; the apology exactly on the error marker; a record gets exactly one edit carrying its card, and an embed edit occurs only for a record |
| Bot.Interaction.constructor | main.js:113-116 | a new interaction carries its token address, is idle, unacknowledged and unedited |
| Bot.Interaction.Reply | main.js:117 | the acknowledgement is sent once and moves the interaction from Idle to Acknowledged |
| Bot.Interaction.EditReply | main.js:121 | an edit is appended to a replied interaction and resolves it |
| Bot.OnRugcheckCommand | main.js:113-179 | acknowledges with `Checking token <ca> for rug...`, then makes exactly the edits `Resolution` prescribes for the fetched outcome, leaving the phase Resolved, or Acknowledged when there was no result |
| Bot.ApologyOnFailure | main.js:89-92 | a thrown request or an incomplete 200 body ends in exactly one edit, the apology text |
| Bot.CardOnSuccess | main.js:148-178 | a complete 200 body ends in exactly one edit holding one card, whose title gives the symbol and whose link gives the token address |
| Bot.ExampleMarketText | main.js:172-173 | a record with market `amm` and LP 95.5 yields the market text `**Market Type**: amm` then `**LP Locked**: ` with the raw LP number and `%` |
| Bot.ExampleReport | main.js:28-87 | an example report (token `ABC123`, symbol `FOO`, five holders, one risk, one AMM market) is extracted, and its card has the title `Rugcheck (FOO)` and the market text with the raw LP number |

## Left out

- HTTP and rate limiting: the axios client and its 1-request-per-1000-ms throttle (main.js:9-12, 20). These are network I/O and a foreign library. The response is the result of the `get` parameter. Which statuses reach the status test is decided by the client's own configuration, which is not modelled.
- The Discord client: construction, login, the `ready` event and the `isChatInputCommand` test (main.js:97-115). The model starts at a chat-input command interaction.
- Command registration through `REST.put` (main.js:184-211). This is a one-shot foreign call over a fixed command definition.
- Configuration loading (main.js:4) and every `console.log`/`console.error` line. These are I/O with no contract.
- Number formatting: `toFixed(2)` (main.js:47) and number interpolation (main.js:169, 173) are parameters. The model proves nothing about them, such as two decimal digits or idempotence.
- JSON dynamic typing: leaves that are absent or of another type are not modelled. Such a leaf would render as `undefined`, or `toFixed` on a non-number would throw. Each leaf has one type in `Api`, and only nullable leaves are `Option`s.
- The crash after a resolved non-200 status: reading `data.error` of `undefined` (main.js:120) is modelled only as "no edit is made". Its exception semantics are not modelled.
- Bot.Interaction.Reply: requires an idle interaction, and Bot.Interaction.EditReply requires a replied one. These are the host library's rules. The library's errors for breaking them are not modelled.
- Bot.OnRugcheckCommand: the acknowledgement at main.js:117 is not awaited, so the edit at main.js:121 or 178 may be issued before the reply has completed. The model takes `Reply` as finished when it returns, so `EditReply` always follows a completed reply. The ordering between the two requests is not modelled.
- Text line structure: `Card.TokenInformationLines`, `Card.RiskInformationLines`, `Card.MarketInformationLines` and `Card.HolderTextLines` assume that no interpolated value contains a newline. A value that does spreads over several lines.
- Concurrent handling of several interactions. Each invocation is independent, and the only shared state is the foreign throttle.
