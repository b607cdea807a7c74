/**
 * The decisions the auditorium's main view takes before it renders: which
 * range link is active and where it points, how the weekly retention matrix
 * is laid out, which unit a count or a duration is shown in, what the
 * consent button asks for, the guard against inviting oneself, whether the
 * viewer is an operator, and the order and highlighting of the account list.
 * Markup is abstracted away: each operation yields the data the template is
 * filled with.
 */
module MainView {
  import opened Wrappers
  import opened Collation

  // ---------------------------------------------------------------------
  // Range selector

  /** The query parameters a range link carries. */
  datatype RangeQuery = RangeQuery(range: string, resolution: string)

  /** One entry of the range selector; the default "7 days" carries no query. */
  datatype Range = Range(display: string, query: Option<RangeQuery>)

  const Ranges: seq<Range> := [
    Range("24 hours", Some(RangeQuery("24", "hours"))),
    Range("7 days", None),
    Range("28 days", Some(RangeQuery("28", "days"))),
    Range("6 weeks", Some(RangeQuery("6", "weeks"))),
    Range("12 weeks", Some(RangeQuery("12", "weeks"))),
    Range("6 months", Some(RangeQuery("6", "months")))
  ]

  /** The index of the default range, the one without a query. */
  const DefaultRange: nat := 1

  /** The two query parameters that select a range. */
  const RangeKeys: set<string> := {"range", "resolution"}

  /** `range.query || {}` as a parameter map. */
  function QueryParams(q: Option<RangeQuery>): (m: map<string, string>)
    ensures q.None? <==> m == map[]
    ensures m.Keys <= RangeKeys
    ensures q.Some? ==> m.Keys == RangeKeys && m["range"] == q.value.range && m["resolution"] == q.value.resolution
  {
    match q
    case None => map[]
    case Some(rq) =>
      var m := map["range" := rq.range, "resolution" := rq.resolution];
      assert "range" in m;
      m
  }

  /** `_.pick(query, ['range', 'resolution'])`: the range parameters of the current query. */
  function Pick(query: map<string, string>): (m: map<string, string>)
    ensures m.Keys == query.Keys * RangeKeys
    ensures forall k :: k in m ==> m[k] == query[k]
  {
    map k | k in query && k in RangeKeys :: query[k]
  }

  /** `_.omit(query, ['range', 'resolution'])`: every other parameter of the current query. */
  function Omit(query: map<string, string>): (m: map<string, string>)
    ensures m.Keys == query.Keys - RangeKeys
    ensures forall k :: k in m ==> m[k] == query[k]
  {
    map k | k in query && k !in RangeKeys :: query[k]
  }

  /** A range is active when the current range parameters are exactly its own. */
  predicate IsActive(query: map<string, string>, r: Range)
    ensures IsActive(query, r) ==> forall k :: k in RangeKeys ==> (k in query <==> r.query.Some?)
  {
    var current, expected := Pick(query), QueryParams(r.query);
    assert current == expected ==> current.Keys == expected.Keys;
    current == expected
  }

  /**
   * Activity in terms of the query itself: a range with a query is active
   * when both parameters are present with its values; the default range is
   * active when neither parameter is present.
   */
  lemma ActiveIff(query: map<string, string>, r: Range)
    ensures IsActive(query, r) <==>
      match r.query
      case None => "range" !in query && "resolution" !in query
      case Some(rq) => "range" in query && "resolution" in query &&
                       query["range"] == rq.range && query["resolution"] == rq.resolution
  {
    var p, q := Pick(query), QueryParams(r.query);
    if p == q {
      if r.query.None? {
        assert "range" !in p && "resolution" !in p;
      } else {
        assert "range" in p && "resolution" in p;
      }
    }
    if r.query.None? && "range" !in query && "resolution" !in query {
      assert p.Keys == {};
    }
    if r.query.Some? && "range" in query && "resolution" in query &&
       query["range"] == r.query.value.range && query["resolution"] == r.query.value.resolution {
      assert p.Keys == RangeKeys == q.Keys;
      assert forall k :: k in p ==> p[k] == q[k];
    }
  }

  /** The six ranges select pairwise different parameters. */
  lemma RangeQueriesDistinct(i: nat, j: nat)
    requires i < |Ranges| && j < |Ranges| && i != j
    ensures QueryParams(Ranges[i].query) != QueryParams(Ranges[j].query)
  {
  }

  /** At most one range is active, whatever the current query. */
  lemma AtMostOneActive(query: map<string, string>, i: nat, j: nat)
    requires i < |Ranges| && j < |Ranges|
    requires IsActive(query, Ranges[i]) && IsActive(query, Ranges[j])
    ensures i == j
  {
  }

  /** Without range parameters in the query, the default "7 days" range is the active one. */
  lemma DefaultIsActive(query: map<string, string>)
    requires "range" !in query && "resolution" !in query
    ensures IsActive(query, Ranges[DefaultRange])
    ensures forall i :: 0 <= i < |Ranges| && i != DefaultRange ==> !IsActive(query, Ranges[i])
  {
  }

  /**
   * The data of one range link: the path, the query parameters of its
   * search part (None when the link has no '?' part), the label, and
   * whether it is drawn as the active range.
   */
  datatype Link = Link(path: string, search: Option<map<string, string>>, display: string, active: bool)

  /** What the link for range `r` must be, given the page's href and the current query. */
  ghost predicate LinkFor(href: string, query: map<string, string>, r: Range, link: Link)
  {
    link.path == href + "/" &&
    link.display == r.display &&
    (link.active <==> IsActive(query, r)) &&
    (link.search.None? <==> r.query.None? && query.Keys <= RangeKeys) &&
    (link.search.Some? ==>
      var params := link.search.value;
      // the range's own parameters win; every other parameter of the query is kept
      (forall k :: k in params <==> (k in RangeKeys && r.query.Some?) || (k in query && k !in RangeKeys)) &&
      (forall k :: k in params && k !in RangeKeys ==> params[k] == query[k]) &&
      (r.query.Some? ==> params["range"] == r.query.value.range && params["resolution"] == r.query.value.resolution))
  }

  /**
   * The body of the mapper over the ranges. `href` is `state.href`, with ""
   * for a missing one. The parameters left after removing the range keys are
   * overlaid in place by the range's own query.
   */
  method RangeLink(href: string, query: map<string, string>, r: Range) returns (link: Link)
    ensures LinkFor(href, query, r, link)
  {
    var url := href + "/";
    var current := Pick(query);
    var activeRange := current == QueryParams(r.query);
    var foreign := Omit(query);
    var search: Option<map<string, string>> := None;
    if r.query.Some? || |foreign| > 0 {
      foreign := foreign + QueryParams(r.query);
      search := Some(foreign);
    }
    if r.query.None? && |Omit(query)| == 0 {
      assert Omit(query) == map[];
      assert query.Keys - RangeKeys == {};
    }
    link := Link(url, search, r.display, activeRange);
  }

  /** The list of range links, one per range and in the same order; at most one is active. */
  method RangeSelector(href: string, query: map<string, string>) returns (links: seq<Link>)
    ensures |links| == |Ranges|
    ensures forall i :: 0 <= i < |links| ==> LinkFor(href, query, Ranges[i], links[i])
    ensures forall i, j :: 0 <= i < |links| && 0 <= j < |links| && links[i].active && links[j].active ==> i == j
  {
    links := [];
    for n := 0 to |Ranges|
      invariant |links| == n
      invariant forall i :: 0 <= i < n ==> LinkFor(href, query, Ranges[i], links[i])
    {
      var link := RangeLink(href, query, Ranges[n]);
      links := links + [link];
    }
    forall i, j | 0 <= i < |links| && 0 <= j < |links| && links[i].active && links[j].active
      ensures i == j
    {
      AtMostOneActive(query, i, j);
    }
  }

  // ---------------------------------------------------------------------
  // Weekly retention

  /** A drawn retention square: filled (dark green) for a non-zero share, blank otherwise. */
  datatype Square = Square(filled: bool)

  /** `retentionSquare`: a missing value renders nothing. */
  function RetentionSquare(value: Option<real>): (s: Option<Square>)
    ensures s.None? <==> value.None?
    ensures s.Some? ==> (s.value.filled <==> value.value != 0.0)
  {
    match value
    case None => None
    case Some(v) => Some(Square(v != 0.0))
  }

  /** A row or column label: the current week, or how many days earlier a week began. */
  datatype Label = ThisWeek | DaysEarlier(days: nat)

  /** `relativeTime(offset)`: the label of the week `offset` weeks back. */
  function RelativeTime(offset: nat): (l: Label)
    ensures l == ThisWeek <==> offset == 0
    ensures l.DaysEarlier? ==> l.days == 7 * offset && l.days >= 7
  {
    if offset == 0 then ThisWeek else DaysEarlier(offset * 7)
  }

  /** Different weeks get different labels. */
  lemma RelativeTimeInjective(a: nat, b: nat)
    requires RelativeTime(a) == RelativeTime(b)
    ensures a == b
  {
  }

  /** Pads a copy of a row with missing values at the end until it is `width` long. */
  method PadRow(row: seq<Option<real>>, width: nat) returns (elements: seq<Option<real>>)
    ensures |elements| == if |row| < width then width else |row|
    ensures elements[..|row|] == row
    ensures forall i :: |row| <= i < |elements| ==> elements[i].None?
  {
    elements := row;
    while |elements| < width
      invariant |row| <= |elements| <= if |row| < width then width else |row|
      invariant elements[..|row|] == row
      invariant forall i :: |row| <= i < |elements| ==> elements[i].None?
    {
      elements := elements + [None];
    }
  }

  /** A body row of the retention table: its label and one cell per (padded) element. */
  datatype Row = Row(week: Label, cells: seq<Option<Square>>)

  /** The header (a leading empty cell, then one label per row) and the body rows. */
  datatype Table = Table(header: seq<Option<Label>>, rows: seq<Row>)

  /** What row `i` of the table must be for the matrix. */
  ghost predicate RowFor(matrix: seq<seq<Option<real>>>, i: nat, row: Row)
    requires i < |matrix|
  {
    var width := if |matrix[i]| < |matrix[0]| then |matrix[0]| else |matrix[i]|;
    row.week == RelativeTime(i) &&
    |row.cells| == width &&
    (forall j :: 0 <= j < |matrix[i]| ==> row.cells[j] == RetentionSquare(matrix[i][j])) &&
    (forall j :: |matrix[i]| <= j < width ==> row.cells[j].None?)
  }

  /** `retentionTable(matrix)`: rows shorter than the first are padded with empty cells. */
  method RetentionTable(matrix: seq<seq<Option<real>>>) returns (t: Table)
    ensures |t.header| == |matrix| + 1 && t.header[0].None?
    ensures forall i :: 0 <= i < |matrix| ==> t.header[i + 1] == Some(RelativeTime(i))
    ensures |t.rows| == |matrix|
    ensures forall i :: 0 <= i < |matrix| ==> RowFor(matrix, i, t.rows[i])
  {
    var rows: seq<Row> := [];
    for index := 0 to |matrix|
      invariant |rows| == index
      invariant forall i :: 0 <= i < index ==> RowFor(matrix, i, rows[i])
    {
      var elements := PadRow(matrix[index], |matrix[0]|);
      var cells := seq(|elements|, j requires 0 <= j < |elements| => RetentionSquare(elements[j]));
      assert forall j :: 0 <= j < |matrix[index]| ==> elements[j] == matrix[index][j] by {
        forall j | 0 <= j < |matrix[index]| ensures elements[j] == matrix[index][j] {
          assert elements[..|matrix[index]|][j] == elements[j];
        }
      }
      rows := rows + [Row(RelativeTime(index), cells)];
    }
    var labels := seq(|matrix|, i requires 0 <= i < |matrix| => Some(RelativeTime(i)));
    t := Table([None] + labels, rows);
  }

  /** When no row is longer than the first, every row of the table is exactly as wide as the first. */
  lemma RectangularWhenNoRowIsLonger(matrix: seq<seq<Option<real>>>, i: nat, row: Row)
    requires i < |matrix| && |matrix[i]| <= |matrix[0]|
    requires RowFor(matrix, i, row)
    ensures |row.cells| == |matrix[0]|
  {
  }

  // ---------------------------------------------------------------------
  // Number formatting (branch choice only; locale formatting is not modelled)

  /** How a count is shown: in millions, in thousands, or as the number itself. */
  datatype CountDisplay = Millions(scaled: real) | Thousands(scaled: real) | Unchanged(count: int)

  /** `formatCount`: the tier, and the value scaled for it. */
  function FormatCount(count: int): (d: CountDisplay)
    ensures d.Millions? <==> count > 1000000
    ensures d.Thousands? <==> 1000 < count <= 1000000
    ensures d.Unchanged? ==> d.count == count
    ensures d.Millions? ==> d.scaled * 1000000.0 == count as real && d.scaled > 1.0
    ensures d.Thousands? ==> d.scaled * 1000.0 == count as real && 1.0 < d.scaled <= 1000.0
  {
    if count > 1000000 then Millions(count as real / 1000000.0)
    else if count > 1000 then Thousands(count as real / 1000.0)
    else Unchanged(count)
  }

  /** How a duration is shown: in seconds, or in whole milliseconds. */
  datatype DurationDisplay = Seconds(seconds: real) | Milliseconds(ms: int)

  /** `Math.round`: the nearest integer, halves rounded up. */
  function Round(x: real): (n: int)
    ensures n as real - 0.5 <= x < n as real + 0.5
  {
    (x + 0.5).Floor
  }

  /** `formatDuration`: seconds from one second on, rounded milliseconds below. */
  function FormatDuration(valueInMs: real): (d: DurationDisplay)
    ensures d.Seconds? <==> valueInMs >= 1000.0
    ensures d.Seconds? ==> d.seconds * 1000.0 == valueInMs && d.seconds >= 1.0
    ensures d.Milliseconds? ==> d.ms as real - 0.5 <= valueInMs < d.ms as real + 0.5 && d.ms <= 1000
  {
    if valueInMs >= 1000.0 then Seconds(valueInMs / 1000.0) else Milliseconds(Round(valueInMs))
  }

  // ---------------------------------------------------------------------
  // Consent and invitations

  /** The flash messages the view hands on. */
  datatype Message = OptedOut | OptedIn | CannotInviteYourself | InviteSent | InviteFailed

  /** Whether the user has opted in: a consent status that is present and "allow". */
  predicate UserHasOptedIn(consentStatus: Option<string>)
    ensures UserHasOptedIn(consentStatus) <==> consentStatus == Some("allow")
  {
    consentStatus.GetOr("") == "allow"
  }

  /** What the consent button asks for: the next status and the message shown afterwards. */
  datatype ConsentRequest = ConsentRequest(nextStatus: string, flash: Message)

  /** `handleConsent`: opting out when opted in, opting in otherwise. */
  function HandleConsent(consentStatus: Option<string>): (r: ConsentRequest)
    ensures r.nextStatus == "deny" <==> consentStatus == Some("allow")
    ensures r.nextStatus == "allow" <==> consentStatus != Some("allow")
    ensures r.flash == OptedOut <==> r.nextStatus == "deny"
    ensures r.flash == OptedIn <==> r.nextStatus == "allow"
  {
    var nextStatus := if UserHasOptedIn(consentStatus) then "deny" else "allow";
    ConsentRequest(nextStatus, if nextStatus == "deny" then OptedOut else OptedIn)
  }

  /** Once the requested status is in place, the button asks for the opposite one. */
  lemma ConsentToggles(consentStatus: Option<string>)
    ensures var next := HandleConsent(consentStatus).nextStatus;
      UserHasOptedIn(Some(next)) == !UserHasOptedIn(consentStatus) &&
      HandleConsent(Some(next)).nextStatus != next
  {
  }

  /** The fields read from the invite form; a field that is missing reads as None. */
  datatype InviteForm = InviteForm(invitee: Option<string>, emailAddress: Option<string>, password: Option<string>)

  /** The payload of an invitation. */
  datatype Invite = Invite(invitee: Option<string>, emailAddress: Option<string>, password: Option<string>,
                           urlTemplate: string, accountId: Option<string>)

  /** The events the view emits that the model follows. */
  datatype Event = Render | InviteUser(invite: Invite, onSuccess: Message, onFailure: Message)

  /** The part of the application state `handleInvite` touches: the flash message and the emitted events. */
  class ViewState {
    var flash: Option<Message>
    var emitted: seq<Event>

    constructor (flash: Option<Message>)
      ensures this.flash == flash && emitted == []
    {
      this.flash := flash;
      emitted := [];
    }

    /**
     * `handleInvite`: inviting one's own address sets the flash message and
     * asks for a re-render; any other invitation is emitted with its payload.
     */
    method HandleInvite(form: InviteForm, origin: string, accountId: Option<string>)
      modifies this
      ensures form.invitee == form.emailAddress ==>
        flash == Some(CannotInviteYourself) && emitted == old(emitted) + [Render]
      ensures form.invitee != form.emailAddress ==>
        flash == old(flash) &&
        emitted == old(emitted) + [InviteUser(Invite(form.invitee, form.emailAddress, form.password,
                                                     origin + "/join/{userId}/{token}/", accountId),
                                              InviteSent, InviteFailed)]
      ensures (exists k :: |old(emitted)| <= k < |emitted| && emitted[k].InviteUser?) <==> form.invitee != form.emailAddress
    {
      if form.invitee == form.emailAddress {
        flash := Some(CannotInviteYourself);
        emitted := emitted + [Render];
        return;
      }
      emitted := emitted + [InviteUser(Invite(form.invitee, form.emailAddress, form.password,
                                              origin + "/join/{userId}/{token}/", accountId),
                                       InviteSent, InviteFailed)];
      assert emitted[|emitted| - 1].InviteUser?;
    }
  }

  // ---------------------------------------------------------------------
  // Operator view and the account list

  /** `state.params.accountId`, with "" when there are no params or no such parameter. */
  function CurrentAccountId(params: Option<map<string, string>>): (id: string)
    ensures params.Some? && "accountId" in params.value ==> id == params.value["accountId"]
    ensures params.None? || "accountId" !in params.value ==> id == ""
  {
    match params
    case None => ""
    case Some(p) => if "accountId" in p then p["accountId"] else ""
  }

  /** `isOperator`: the view is the operator's exactly when params carry a non-empty account id. */
  function IsOperator(params: Option<map<string, string>>): (b: bool)
    ensures b <==> params.Some? && "accountId" in params.value && params.value["accountId"] != ""
  {
    CurrentAccountId(params) != ""
  }

  /** An account the authenticated user can switch to. */
  datatype Account = Account(accountId: string, accountName: string)

  /** Names never decrease along the list. */
  ghost predicate SortedByName(s: seq<Account>)
  {
    forall i, j :: 0 <= i < j < |s| ==> NameLe(s[i].accountName, s[j].accountName)
  }

  /** An account no later than the head of a sorted list can be put in front of it. */
  lemma PrependSorted(a: Account, s: seq<Account>)
    requires SortedByName(s)
    requires s == [] || NameLe(a.accountName, s[0].accountName)
    ensures SortedByName([a] + s)
  {
    forall j | 1 < j < |s| + 1
      ensures NameLe(a.accountName, ([a] + s)[j].accountName)
    {
      Transitive(a.accountName, s[0].accountName, s[j - 1].accountName);
    }
  }

  /** Inserts an account into a list sorted by name, before the first account it does not follow. */
  function InsertByName(a: Account, s: seq<Account>): (r: seq<Account>)
    requires SortedByName(s)
    ensures SortedByName(r)
    ensures multiset(r) == multiset(s) + multiset{a}
    ensures r[0] == a || (s != [] && r[0] == s[0])
  {
    if s == [] then [a]
    else if NameLe(a.accountName, s[0].accountName) then
      PrependSorted(a, s);
      [a] + s
    else
      var rest := InsertByName(a, s[1..]);
      Total(a.accountName, s[0].accountName);
      assert s == [s[0]] + s[1..];
      PrependSorted(s[0], rest);
      [s[0]] + rest
  }

  /** The accounts sorted by name: a sorted copy holding the same accounts. */
  function SortByName(s: seq<Account>): (r: seq<Account>)
    ensures SortedByName(r)
    ensures multiset(r) == multiset(s)
  {
    if s == [] then []
    else
      assert s == [s[0]] + s[1..];
      InsertByName(s[0], SortByName(s[1..]))
  }

  /** One entry of the account list; `highlighted` is the bold class of the current account. */
  datatype AccountButton = AccountButton(account: Account, highlighted: bool)

  /** The accounts shown in the list, in order. */
  function AccountsOf(buttons: seq<AccountButton>): (s: seq<Account>)
    ensures |s| == |buttons|
    ensures forall i :: 0 <= i < |s| ==> s[i] == buttons[i].account
  {
    if buttons == [] then [] else [buttons[0].account] + AccountsOf(buttons[1..])
  }

  /**
   * The operator's account list: all of the user's accounts, sorted by
   * name, with exactly those whose id is the current account highlighted.
   */
  function AccountList(accounts: seq<Account>, currentAccountId: string): (r: seq<AccountButton>)
    ensures |r| == |accounts|
    ensures multiset(AccountsOf(r)) == multiset(accounts)
    ensures SortedByName(AccountsOf(r))
    ensures forall i :: 0 <= i < |r| ==> (r[i].highlighted <==> r[i].account.accountId == currentAccountId)
  {
    var sorted := SortByName(accounts);
    var r := seq(|sorted|, i requires 0 <= i < |sorted| => AccountButton(sorted[i], sorted[i].accountId == currentAccountId));
    assert AccountsOf(r) == sorted;
    assert |sorted| == |multiset(sorted)| == |multiset(accounts)| == |accounts|;
    r
  }
}
