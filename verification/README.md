# Offen session identifiers and dashboard view logic, in Dafny

This project models two pieces of the Offen privacy-friendly analytics system.

1. **The vault's per-account session identifier** (`getSessionId`). The
   identifier lives in the browser's cookie jar under `"session-" + accountId`.
   A non-empty stored value is returned unchanged. Otherwise a fresh
   identifier is drawn, written under that key and returned. If reading or
   writing the jar throws, the caller gets a new identifier that is never
   persisted.
2. **The decisions the auditorium's main view makes before rendering.** These
   are: which range link is active and what its query is; how the weekly
   retention matrix is padded and labelled; which unit a count or duration is
   shown in; what the consent button asks for; the guard against inviting
   yourself; whether the viewer is an operator; and the order and
   highlighting of the account list. Markup is abstracted away. Each
   operation yields the data that the template is filled with.

Files:

- `wrappers.dfy`: the `Option` type.
- `uuid.dfy`: module `Uuid`, the fresh-identifier supplier that stands in for
  `uuid/v4`. The n-th identifier is the hexadecimal spelling of n. The class
  `IdGenerator` keeps the set of identifiers it has issued, and the proofs show
  that each draw is new.
- `session_id.dfy`: module `SessionId`. It holds the cookie jar as a class
  (`CookieJar`) whose `entries` map is updated in place. A flag says whether
  parsing the jar throws. A write outcome says whether assigning a cookie
  throws, is silently dropped (a browser that blocks the cookie), or is kept. The pure function
  `Call` describes one call. The method `GetSessionId` is proved to behave as
  `Call` says, and the lemmas state the properties of `Call`.
- `collation.dfy`: module `Collation`, lexicographic code-point order on names,
  proved to be a total order.
- `main_view.dfy`: module `MainView`, the view logic.

When the cookie write throws, the `catch` block draws a second identifier
and returns that one. The first is discarded (vault/src/session-id.js:22-26).
`Call` therefore reports two draws and returns the second.

## Model

| member | source | states |
|---|---|---|
| SessionId.LookupKey | vault/src/session-id.js:18 | the key is exactly the prefix "session-" followed by the account id |
| SessionId.LookupKeyInjective | vault/src/session-id.js:18 | different account ids never share a cookie key |
| SessionId.Stored | vault/src/session-id.js:20 | a missing entry and an empty entry both read as absent; any other value is the stored one |
| SessionId.Call | vault/src/session-id.js:12-29 | one call draws at most two ids; nothing is drawn exactly when the jar is readable and holds a non-empty value under the key; the jar is either unchanged or changed only at the account's key, to the returned id, and it changes only when it is readable and keeps writes; the returned id is the first draw after one draw and the second draw after two |
| SessionId.ReturnsStored | vault/src/session-id.js:19-21 | a stored non-empty id is returned; nothing is drawn and the jar is unchanged |
| SessionId.CreatesWhenAbsentOrEmpty | vault/src/session-id.js:20-24 | with a readable jar that keeps writes, a missing or empty entry leads to the first fresh id being written under the key (overwriting an empty value) and returned |
| SessionId.OnlyKeyChanges | vault/src/session-id.js:21-24 | no entry other than the account's key is added, removed or changed |
| SessionId.Idempotent | vault/src/session-id.js:19-24 | after a call on a readable jar that keeps writes, a second call for the same account returns the same id, draws nothing and writes nothing |
| SessionId.FailureDoesNotPersist | vault/src/session-id.js:25-27 | when the read throws, or the write throws, the jar is unchanged; the id returned is the first draw after a read failure and the second draw after a write failure |
| SessionId.IgnoredWriteNotKept | vault/src/session-id.js:21-24 | when the jar accepts a write without keeping it, no exception is raised: the first draw is returned, the jar is unchanged, and the next call draws again |
| SessionId.CookieJar.Parse | vault/src/session-id.js:19 | parsing yields the entries when the jar is readable and fails otherwise |
| SessionId.CookieJar.Set | vault/src/session-id.js:23 | a write reports failure exactly when it throws, and sets exactly the one entry only when the jar keeps writes; otherwise it changes nothing |
| SessionId.GetSessionId | vault/src/session-id.js:12-29 | the returned id, the new jar contents and the number of ids drawn are those `Call` gives for the old jar and the generator's next two ids; any id not already in the jar was never issued before; the method never fails |
| SessionId.RepeatedCallsAgree | vault/src/session-id.js:19-24 | on a readable jar that keeps writes, two calls for the same account return the same id, and the jar then maps the account's key to it |
| SessionId.IgnoredWritesUnlinkable | vault/src/session-id.js:21-24 | on a readable jar that drops writes without throwing, two calls for an account with no stored id return two different ids, and the jar is untouched |
| SessionId.FailingReadUnlinkable | vault/src/session-id.js:25-27 | on a jar whose read throws, two calls for the same account return two different ids, and the jar is untouched |
| Uuid.IdGenerator.Next | vault/src/session-id.js:22 | each draw returns a non-empty id that was not issued before, and records it as issued |
| Uuid.IdGenerator.UpcomingAreFresh | vault/src/session-id.js:26 | every id still to come is fresh, and the next two ids differ |
| Uuid.HexInjective | vault/src/session-id.js:22 | draws at different counter values yield different ids |
| MainView.QueryParams | auditorium/views/main.js:96 | the range query, or the empty object for none, is empty exactly for the default range; otherwise it holds exactly range and resolution, with the range's values |
| MainView.Pick | auditorium/views/main.js:95 | keeps exactly the range and resolution parameters of the query, with their values |
| MainView.Omit | auditorium/views/main.js:97 | keeps exactly the parameters other than range and resolution, with their values |
| MainView.IsActive | auditorium/views/main.js:95-96 | `_.isEqual` of the picked range parameters and the range's query; when it holds, each of range and resolution is in the query exactly when the range has a query |
| MainView.ActiveIff | auditorium/views/main.js:95-96 | a range with a query is active exactly when the query holds both of its parameters with its values; the default range is active exactly when neither parameter is present |
| MainView.RangeQueriesDistinct | auditorium/views/main.js:86-92 | the six ranges select pairwise different parameters |
| MainView.AtMostOneActive | auditorium/views/main.js:86-96 | for any query, at most one range is active |
| MainView.DefaultIsActive | auditorium/views/main.js:88-96 | without range parameters, "7 days" is active and no other range is |
| MainView.RangeLink | auditorium/views/main.js:93-100 | the link path is href + "/"; the link is active exactly when the range is active; it has a search part exactly when the range has a query or the query has other parameters; the search part keeps every other parameter and takes range and resolution from the range |
| MainView.RangeSelector | auditorium/views/main.js:86-118 | one link per range, in order, each as RangeLink states, and no two links are active |
| MainView.RetentionSquare | auditorium/views/main.js:416-428 | a missing value renders nothing; a present value renders a square that is filled exactly when the value is non-zero |
| MainView.RelativeTime | auditorium/views/main.js:431-436 | offset 0 is "This week"; offset n > 0 is labelled 7·n days earlier |
| MainView.RelativeTimeInjective | auditorium/views/main.js:431-436 | different weeks get different labels |
| MainView.PadRow | auditorium/views/main.js:440-443 | the copy is padded with missing values up to the width; the original row stays as a prefix; a row already as long is not truncated |
| MainView.RetentionTable | auditorium/views/main.js:438-464 | the header is one empty cell plus one label per row, with row i labelled RelativeTime(i); row i has one cell per element of the row padded to the first row's width, where element cells are the row's squares and padding cells render nothing |
| MainView.RectangularWhenNoRowIsLonger | auditorium/views/main.js:439-443 | a row no longer than the first row is rendered exactly as wide as the first |
| MainView.FormatCount | auditorium/views/main.js:473-481 | counts above 1,000,000 are shown in millions, counts above 1000 and up to 1,000,000 in thousands (scaled into (1, 1000]), and any other count unchanged |
| MainView.Round | auditorium/views/main.js:470 | `Math.round`: the result is within half a unit of the value, with halves rounded up |
| MainView.FormatDuration | auditorium/views/main.js:466-471 | from 1000 ms on the duration is shown in seconds (at least 1); below that it is shown in rounded milliseconds, which are at most 1000 |
| MainView.UserHasOptedIn | auditorium/views/main.js:12 | the user has opted in exactly when a consent status is present and it is "allow" |
| MainView.HandleConsent | auditorium/views/main.js:12-18 | the next status is "deny" exactly when the current status is "allow", and "allow" otherwise (also when there is no status); the opt-out message goes with "deny" and the opt-in message with "allow" |
| MainView.ConsentToggles | auditorium/views/main.js:12-15 | once the requested status is in place, the user's opt-in state is flipped and the button asks for the opposite status |
| MainView.ViewState.HandleInvite | auditorium/views/main.js:28-52 | an invitee equal to the user's own address sets the "cannot invite yourself" flash and emits only a render; any other invitee emits one invite with the form's fields, the join URL template and the account id, and leaves the flash alone; an invite is emitted exactly when the addresses differ |
| MainView.CurrentAccountId | auditorium/views/main.js:54 | the account id from params, or "" when there are no params or no such parameter |
| MainView.IsOperator | auditorium/views/main.js:54 | the operator view holds exactly when params carry a non-empty account id |
| MainView.InsertByName | auditorium/views/main.js:132-135 | inserting into a list sorted by name gives a sorted list with the same accounts plus the inserted one |
| MainView.SortByName | auditorium/views/main.js:131-135 | a copy sorted by name that holds the same accounts, with the same multiplicities |
| MainView.AccountList | auditorium/views/main.js:131-142 | all the user's accounts, sorted by name, and highlighted exactly when the account's id is the current account id |
| Collation.NameLe | auditorium/views/main.js:134 | the order that stands in for `localeCompare`: lexicographic on code points, so a name sorts no later than any name it is a prefix of |
| Collation.Total | auditorium/views/main.js:134 | any two names are comparable in the order that stands in for `localeCompare` |
| Collation.Transitive | auditorium/views/main.js:134 | that order is transitive |
| Collation.Antisymmetric | auditorium/views/main.js:134 | names that sort no later than each other are equal |

## Left out

- Randomness of `uuid/v4`: identifiers come from a counter, spelled in hexadecimal. Only freshness is modelled, not the UUID v4 bit layout.
- `cookie-tools` (parse, serialize, default attributes such as path, expiry and SameSite) is not part of this model. The jar is a map from names to values. Any exception from parsing, or from reading `document.cookie`, counts as "read fails". Any exception from serializing or assigning the cookie counts as a write that throws. A browser that silently ignores the assignment is the "dropped" write outcome. Partial keeping (for example a cookie kept but expired before the next call) is not modelled.
- Concurrent first calls from several components (last write wins) are not modelled. Calls are sequential method calls.
- HTML markup, and the parts whose only decision is `isOperator` (modelled by `IsOperator`) or a truthiness test on a model field or on `state.stale`. These are: the page title and the account header (auditorium/views/main.js:63-84); the live table, the chart, the embed code, the invite form and the admin console link; the optional key metric panels (auditorium/views/main.js:256-261); and the loading overlay (auditorium/views/main.js:393).
- `handlePurge` and the `offen:schedule-refresh` event (auditorium/views/main.js:25, 60) only emit to the event bus, with fixed arguments. The callback attached to the consent event (auditorium/views/main.js:19-21) re-emits `offen:query` with the params overlaid by the query, and with the authenticated user. That callback is not modelled. The only events modelled are the render and the invite that `handleInvite` emits.
- MainView.FormatCount: states the tier and the scaled value, not the formatted string, because `toLocaleString` and its fraction digits are not modelled.
- MainView.FormatDuration: states the unit and the value, not the formatted string, for the same reason.
- MainView.RetentionSquare: does not model the square's title or its opacity (`value * 0.75 + 0.25`), which are floating-point presentation.
- MainView.SortByName: sorts by code-point order instead of `localeCompare`'s locale collation. The sort is stable, like the view's `Array.prototype.sort`, but stability is not proved.
- MainView.RangeLink: the search part is a parameter map. `URLSearchParams` percent-encoding and parameter order are not modelled. Query values are single strings, so repeated parameters are not modelled.
- The `href` of the page is a string, with "" for a missing `state.href`.
