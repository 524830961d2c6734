# Agent capability adaptation, modelled in Dafny

This project models the deterministic core of three agents built on a hosted
agent SDK. Each agent exposes *capabilities*: named operations that the host
runtime invokes and that must answer with text.

- **Twitter marketing agent** (`TwitterAgent`, `twitter_agent.dfy`). Four
  capabilities: `getTwitterAccount`, `checkTwitterPermissions`,
  `sendMarketingTweet` and `createSummaryDocument`. The heart is the error
  normaliser of `sendMarketingTweet`. It turns every way the posting call can
  settle into one string: a double-JSON-encoded error envelope (403 or another
  status), an undecodable message (the success path), or a thrown error
  (403 or generic). It never lets a failure escape.
- **Wallet agent** (`GoatAgent`, `goat_agent.dfy`). The startup guard over
  four required environment variables. `toCapability`, which adapts each
  discovered wallet tool into a capability. The pass that rebinds the
  `execute` of the `transfer` and `get_balance` tools so that they use the
  wallet's own address. The pass is given twice: as the function
  `OverridePass` and as the in-place method `InjectContext` over the array of
  discovered tools, proved equal to it.
- **Search agent** (`SonarSearch`, `sonar_search.dfy`). The `search`
  capability: the first answer, then, only when there are citations, a
  header and the numbered sources joined by line breaks.

Support modules: `Wrappers` (Option), `Js` (JavaScript values as far as
truthiness, `typeof`, `||` and template literals need them; the settled
outcome of an awaited call), `Decimal` (decimal rendering of integers and
its inverse), `Text` (`startsWith`/`endsWith`/`includes`, `join`, `split`).

Everything the code obtains by I/O is a parameter. `callIntegration` becomes
a function from the request to its `Outcome`. The double `JSON.parse` of a
response message is `decode`, a function to `Option<ErrorRecord>`. `None`
covers both a parse failure and a decoded `null`, whose `.status` read
throws into the same `catch`. `JSON.stringify(response, null, 2)` is the
parameter `stringify`. The record that `checkTwitterPermissions` serialises
is returned as a `JsonRecord`, the object handed to `JSON.stringify`. The
timestamp, the wallet address, the balance query and the discovered tools
are inputs too. A missing `action` in an invocation is modelled as the
TypeError that `action!.workspace.id` throws.

Two places where the code does less than one might expect, and the model
follows the code. First, the result for an envelope
`{status: 403, detail: 'nope'}` does not contain "403": the code renders
only the detail (`Decoded403Example`: "Twitter API Error: nope. This is
likely …"). Second, the `transfer` override never reaches the original
`execute`; see Findings.

## Model

| member | source | states |
|---|---|---|
| `TwitterAgent.GetTwitterAccount` | twitter-agent/twitter-agent.ts:25-41 | the username when the `GET /2/users/me` call returns one, `undefined` when the response has none; the fixed "Unable to access Twitter account" text when it throws or the invocation has no action |
| `TwitterAgent.CheckTwitterPermissions` | twitter-agent/twitter-agent.ts:47-73 | the serialised record has `status`, `message` and at most one more field, and exactly those two when the lookup returns no username, since `JSON.stringify` omits an undefined `username`; `status` is "success" with the username (when the response has one) exactly when the lookup returns, otherwise "error" with the thrown message or "Unknown error", and never both `username` and `error` |
| `Js.OrDefault` | twitter-agent/twitter-agent.ts:70 | the fallback of `error.message` to 'Unknown error' (and of `title` to 'Summary Document'): the string when present and non-empty, otherwise the fallback |
| `TwitterAgent.UniqueTweetText` | twitter-agent/twitter-agent.ts:85-87 | the posted text starts with the caller's text, followed by " [", the timestamp and "]" |
| `TwitterAgent.RenderTweetOutcome` | twitter-agent/twitter-agent.ts:102-125 | every outcome yields a string: decoded status 403 gives the Forbidden text quoting `detail` or else `message`; another decoded status gives "Error <status>: <message>"; an undecodable or absent message gives `output.data.text` unchanged; a thrown message containing "403" gives the fixed Forbidden text; any other throw gives the "Unable to send tweet … Details: " text with the message or "Unknown error" |
| `TwitterAgent.SendMarketingTweet` | twitter-agent/twitter-agent.ts:81-127 | the call receives a `POST /2/tweets` request to `twitter-v2` for the invocation's workspace carrying the time-stamped text, and its outcome is normalised; without an action the result is that of a thrown TypeError |
| `TwitterAgent.ThrownForbiddenIff` | twitter-agent/twitter-agent.ts:116-125 | for a thrown error the result has the Forbidden shape (prefix "Twitter API Error: ", suffix "… The tweet was not posted.") exactly when the message contains "403" |
| `TwitterAgent.DecodedForbiddenIff` | twitter-agent/twitter-agent.ts:102-111 | for a decoded envelope the result has the Forbidden shape exactly when `status` is the number 403 (a string "403" is not) |
| `TwitterAgent.ThrownStatusCode403Example` | twitter-agent/twitter-agent.ts:120-122 | the error "Request failed with status code 403" yields the fixed Forbidden text |
| `TwitterAgent.Decoded403Example` | twitter-agent/twitter-agent.ts:103-108 | an envelope `{status: 403, detail: 'nope'}` yields "Twitter API Error: nope. This is likely due to Twitter's API restrictions. The tweet was not posted.", which contains "nope" |
| `TwitterAgent.DocumentTitle` | twitter-agent/twitter-agent.ts:142-144 | the title when present and non-empty, otherwise "Summary Document"; never empty |
| `TwitterAgent.CreateSummaryDocument` | twitter-agent/twitter-agent.ts:135-146 | markdown (also the default when no format is given) is "# " + title + a blank line + content; text is the same without "# " |
| `TwitterAgent.SummaryDocumentShape` | twitter-agent/twitter-agent.ts:141-145 | the document ends with a blank line and the content; a markdown document starts with "# "; a text document starts with "# " only when its title does |
| `GoatAgent.FirstUnset` | src/goat-agent/index.ts:15-29 | the position of the first unset name in a list: every earlier name is set, and none is returned only when all are set |
| `GoatAgent.CheckEnvironment` | src/goat-agent/index.ts:15-29 | the guards pass exactly when all four required variables are set, and a failure names one required variable that is unset |
| `GoatAgent.CheckEnvironmentReportsFirstUnset` | src/goat-agent/index.ts:15-29 | the four guards fail exactly when one of WALLET_PRIVATE_KEY, RPC_PROVIDER_URL, OPENAI_API_KEY, OPENSERV_API_KEY is unset or empty, and report "<first unset in that order> is not set" |
| `GoatAgent.ResponseText` | src/goat-agent/index.ts:75-81 | a tool's failure propagates unchanged; an object or `null` is serialised; a string is returned unchanged; a number or boolean is converted to text; `undefined` makes `toString` throw |
| `GoatAgent.ToCapability` | src/goat-agent/index.ts:69-84 | name, description and parameters (as schema) are carried over; running the capability executes the tool with the same arguments and renders the result by `ResponseText` |
| `GoatAgent.ToCapabilities` | src/goat-agent/index.ts:120 | exactly one capability per tool, in the same order |
| `GoatAgent.ToCapabilitiesKeepsNames` | src/goat-agent/index.ts:120 | tools with distinct names give capabilities with distinct names |
| `GoatAgent.BindDestination` | src/goat-agent/index.ts:105 | the arguments passed downstream have `to` equal to the wallet address whatever `to` was, and every other argument unchanged |
| `GoatAgent.ConfirmTransaction` | src/goat-agent/index.ts:106 | a resolved transfer becomes "Transaction sent: <result>"; a failure propagates |
| `GoatAgent.TransferOverride` | src/goat-agent/index.ts:104-107 | the new `execute` calls the original `execute`, captured at install time, on the address-bound arguments and confirms its result |
| `GoatAgent.BalanceText` | src/goat-agent/index.ts:114-115 | a resolved balance becomes "<value> <symbol>"; a failed query propagates |
| `GoatAgent.BalanceOverride` | src/goat-agent/index.ts:113-116 | the new `execute` answers with the balance of the wallet's own address for every argument object |
| `GoatAgent.BalanceOverrideIgnoresArguments` | src/goat-agent/index.ts:113 | any two argument objects get the same answer |
| `GoatAgent.BalanceOverrideExample` | src/goat-agent/index.ts:113-116 | a balance of value "5" and symbol "USDC" is reported as "5 USDC" |
| `GoatAgent.FirstIndex` | src/goat-agent/index.ts:101 | `tools.find` by name: the first tool with that name, or none when no tool has it |
| `GoatAgent.FindTool` | src/goat-agent/index.ts:110 | the search over the discovered tools finds the same tool as `FirstIndex` |
| `GoatAgent.OverridePass` | src/goat-agent/index.ts:101-117 | tool count, names, descriptions and schemas are unchanged; only the first `transfer` and the first `get_balance` get new `execute`s (the two overrides); with neither name present the tools are unchanged |
| `GoatAgent.TransferCapabilityBindsAddress` | src/goat-agent/index.ts:101-107 | running the adapted `transfer` capability passes the wallet address as `to` to the original tool and renders "Transaction sent: …" |
| `GoatAgent.InjectContext` | src/goat-agent/index.ts:101-117 | updating the discovered tools in place leaves them equal to `OverridePass` of the old tools |
| `GoatAgent.Startup` | src/goat-agent/index.ts:86-124 | when the environment guard fails nothing is registered and the tools are untouched; otherwise the overrides are installed and the capabilities registered are the adapted tools |
| `GoatAgent.AsWrittenArguments` | src/goat-agent/index.ts:104-105 | `{ args }` is destructured from the incoming arguments and `to` is bound over it: with an `args` property the result is that object spread with `to` bound to the wallet address, as `BindDestination` binds it; without one only `to` is passed on |
| `GoatAgent.InstallAsWritten` | src/goat-agent/index.ts:101-104 | the wrapper replaces the `execute` property of the found tool and every other tool keeps its own |
| `GoatAgent.CallSlot` | src/goat-agent/index.ts:104-107 | a call reads the tool's `execute` property when made: an original function is called directly, and the wrapper re-enters the property until the stack is exhausted |
| `GoatAgent.TransferAsWrittenAlwaysThrows` | src/goat-agent/index.ts:104-107 | once the wrapper as written is installed, calling that tool rejects with a stack overflow at every stack depth, whatever its original function was |
| `GoatAgent.AsWrittenArgumentsDropAmount` | src/goat-agent/index.ts:104-105 | the wrapper as written passes on only `to`, dropping `amount`, where `BindDestination` keeps it |
| `Decimal.NatToString` | perplexity-sonar-pro/index.ts:30 | the rendering of `index + 1` is a non-empty string of digits without a leading zero |
| `Decimal.IntToString` | twitter-agent/twitter-agent.ts:111 | the rendering of a numeric status: the digits, with a minus sign before a negative value |
| `Decimal.NatToStringRoundTrip` | perplexity-sonar-pro/index.ts:30 | reading a rendered number back gives the number |
| `SonarSearch.CitationLinesFrom` | perplexity-sonar-pro/index.ts:30 | one line per citation, in order; the i-th (0-based) is "[" + (i+1) + "] " + url |
| `SonarSearch.AppendCitations` | perplexity-sonar-pro/index.ts:29-31 | the answer is a prefix of the result; without citations the result is the answer; with citations it is answer + "\nCitations:\n" + the lines joined by "\n", without a trailing line break |
| `SonarSearch.Search` | perplexity-sonar-pro/index.ts:24-34 | absent or empty citations give the first choice's content exactly; otherwise the content, the header and the list; a failed request propagates and a response without choices throws |
| `SonarSearch.CitationLineRoundTrip` | perplexity-sonar-pro/index.ts:30 | each line reads back as its 1-based number and its url |
| `SonarSearch.CitationLinesRoundTrip` | perplexity-sonar-pro/index.ts:30 | the lines read back as the urls in order, each numbered by its position |
| `SonarSearch.CitationBlockRoundTrip` | perplexity-sonar-pro/index.ts:30 | splitting the joined list at line breaks and reading each line gives back exactly the cited urls, in order, when no url contains a line break |

## Findings

| source | as written | input that shows it | evidently intended | confidence | as-written member | corrected member |
|---|---|---|---|---|---|---|
| src/goat-agent/index.ts:104-105 | the wrapper assigned to `transferTool.execute` calls `transferTool.execute`, which by then is the wrapper itself | any call of the adapted `transfer` capability | call the tool's original `execute`, captured before it is replaced | high; not executed | `GoatAgent.TransferAsWrittenAlwaysThrows` | `GoatAgent.TransferOverride` |
| src/goat-agent/index.ts:104 | the wrapper destructures `{ args }` from its parameter, but line 75 passes the arguments object itself, so `args` is undefined and only `to` is passed on | arguments `{to: "0x01", amount: "1"}` | pass every incoming argument, with `to` replaced by the wallet address | high; not executed | `GoatAgent.AsWrittenArgumentsDropAmount` | `GoatAgent.BindDestination` |

The override pass (`OverridePass`, `InjectContext`) uses the corrected
definitions.

## Left out

- Host and SDK mechanics: `Agent` construction, `addCapabilities`, `start()`, the HTTP server, logging, `dotenv`, reading the system prompt files, and `process.exit(1)` when the Twitter agent fails to start. These are foreign SDK calls or process effects.
- `callIntegration`, `getTools`, `wallet.getAddress`, `wallet.balanceOf` and the search HTTP request: their results are parameters.
- `perplexity-sonar-pro/client.ts` is not part of this model. It is an HTTP wrapper whose error path depends on `axios.isAxiosError`. `src/index.ts` is not part of this model either: it drives an agent module that is not available.
- The `PERPLEXITY_API_KEY` guard (perplexity-sonar-pro/index.ts:6-8) has the same shape as the wallet agent's guard and is not modelled separately.
- The internals of `JSON.parse` and `JSON.stringify`: decoding is the parameter `decode`; serialisation is the parameter `stringify` or the `JsonRecord` value.
- `new Date().toISOString()`: the timestamp is an input string.
- Promises: an awaited call is its settled `Outcome`. A call that never settles is not represented.
- JavaScript values: numbers are integers, rendered in plain decimal. The exponent form JavaScript uses from 10^21 on is not modelled. `NaN`, arrays, functions, symbols and bigints are not represented. An object renders as "[object Object]".
- Spreading a string (which yields index-named properties) is not modelled: `Js.Spread` gives no properties for any non-object.
- A thrown value without a `message` is modelled (`Threw(None)`). Throwing `null` or `undefined` is not: there, reading `error.message` in the `catch` would itself throw.
- A tweet response without `output` or `output.data` is not modelled. In the code, reading `.text` there throws into the outer `catch`. `TweetResponse` always carries the text.
- `TwitterAgent.SendMarketingTweet`: without an action, the result is stated as the normalised TypeError rather than as a literal string.
- The transfer wrapper as written is modelled only to exhibit the findings. `GoatAgent.CallSlot` bounds the wrapper's re-entry by the stack depth left, an explicit parameter.
- The `username` of the `GET /2/users/me` response is modelled as a string or absent. Other JSON types there, and their serialisation, are not.
