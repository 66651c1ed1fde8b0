/** The account's activities as the House keeps them (league/account_activity.py `ActivityLedger._read`,
    `_refresh`, `activities_after`): after one whole read, windows of the last days, and a whole read every
    few hours. Time is whole seconds. */
module ActivityCache {
  import opened Wrappers

  const WINDOW := 3 * 86400
  const FULL_EVERY := 6 * 3600
  const EVERY := 300
  const PAGE := 100
  const MAX_PAGES := 200

  /** An activity never changes; it is dated, and the account shows it from some moment on. */
  datatype Activity = Activity(id: Name, date: int, shownAt: int)

  /** What the account shows at a moment of what is dated after another. */
  function Shown(world: set<Activity>, at: int, after: int): set<Activity> {
    set a | a in world && a.shownAt <= at && a.date > after
  }

  predicate Timely(a: Activity) {
    a.shownAt <= a.date + (WINDOW - FULL_EVERY)
  }

  /** The cached activities and when the last whole read began (None: the next is one). */
  datatype Cache = Cache(activities: set<Activity>, fullAt: Option<int>)

  const COLD := Cache({}, None)

  predicate IsFull(c: Cache, now: int) {
    c.fullAt.None? || now - c.fullAt.value >= FULL_EVERY
  }

  function After(c: Cache, now: int, start: int): int {
    if IsFull(c, now) || now - WINDOW < start then start else now - WINDOW
  }

  /** How a read ends: a reading; an account or book that cannot be read, before or after the cache took
      what was fetched; or any other failure, which may leave the cache half-updated. */
  datatype Ending = Read | UnreadableBefore | UnreadableAfter | Failed(torn: set<Activity>)

  function Taken(c: Cache, now: int, fetched: set<Activity>): Cache {
    if IsFull(c, now) then Cache(fetched, Some(now)) else c.(activities := c.activities + fetched)
  }

  function Ended(c: Cache, now: int, fetched: set<Activity>, ending: Ending): Cache {
    match ending
    case Read => Taken(c, now, fetched)
    case UnreadableAfter => Taken(c, now, fetched)
    case UnreadableBefore => c
    case Failed(torn) => Cache(torn, None)
  }

  /** One refresh: it begins at `now` and the account answers at `at`. */
  datatype Refresh = Refresh(now: int, at: int, ending: Ending)

  function Refreshed(c: Cache, world: set<Activity>, start: int, r: Refresh): Cache {
    Ended(c, r.now, Shown(world, r.at, After(c, r.now, start)), r.ending)
  }

  // ------------------------------------------------------------------ the cache is a whole read

  /** Refreshes run one at a time on a clock that never runs back. */
  predicate InTurn(refreshes: seq<Refresh>, since: int)
    decreases |refreshes|
  {
    refreshes != [] ==> since <= refreshes[0].now <= refreshes[0].at && InTurn(refreshes[1..], refreshes[0].at)
  }

  function Ran(c: Cache, world: set<Activity>, start: int, refreshes: seq<Refresh>): Cache
    decreases |refreshes|
  {
    if refreshes == [] then c else Ran(Refreshed(c, world, start, refreshes[0]), world, start, refreshes[1..])
  }

  /** Between reads, a cache that will not be read whole next time is everything shown at the last fetch. */
  predicate Whole(c: Cache, world: set<Activity>, start: int, last: int) {
    c.fullAt.Some? ==> c.fullAt.value <= last && exists at ::
                         c.fullAt.value <= at <= last && c.activities == Shown(world, at, start)
  }

  /** What a successful refresh leaves: six hours after the last whole read began, or where none is known, all the
      account shows; before that what was there and what is shown of the last three days. */
  lemma RefreshIs(c: Cache, world: set<Activity>, start: int, r: Refresh)
    requires r.ending.Read?
    ensures var after := Refreshed(c, world, start, r);
            if c.fullAt.None? || c.fullAt.value + 6 * 3600 <= r.now then
              after.fullAt == Some(r.now) &&
              forall a :: a in after.activities <==> a in world && a.shownAt <= r.at && start < a.date
            else
              after.fullAt == c.fullAt &&
              forall a :: a in after.activities <==>
                          a in c.activities ||
                          (a in world && a.shownAt <= r.at && start < a.date && r.now < a.date + 3 * 86400)
  {}

  /** A window read adds what is dated inside its window; what it cannot see is what the account began to
      show since the last fetch for a day already outside it. */
  lemma WindowReadMisses(c: Cache, world: set<Activity>, start: int, now: int, at: int, before: int)
    requires !IsFull(c, now) && before <= at && c.activities == Shown(world, before, start)
    ensures Taken(c, now, Shown(world, at, After(c, now, start))).activities
         == Shown(world, at, start) - set a | a in world && before < a.shownAt <= at && start < a.date <= now - WINDOW
  {}

  /** Within the window's margin nothing is missed. */
  lemma TakenIsWhole(c: Cache, world: set<Activity>, start: int, now: int, at: int, last: int)
    requires Whole(c, world, start, last) && last <= now <= at
    requires forall a :: a in world ==> Timely(a)
    ensures var after := Taken(c, now, Shown(world, at, After(c, now, start)));
            after.activities == Shown(world, at, start) && after.fullAt.Some? && after.fullAt.value <= at
  {}

  lemma {:induction false} RunIsWhole(c: Cache, world: set<Activity>, start: int, refreshes: seq<Refresh>, last: int)
    requires Whole(c, world, start, last) && InTurn(refreshes, last)
    requires forall a :: a in world ==> Timely(a)
    ensures var end := if refreshes == [] then last else refreshes[|refreshes| - 1].at;
            Whole(Ran(c, world, start, refreshes), world, start, end)
    ensures refreshes != [] && refreshes[|refreshes| - 1].ending.Read? ==>
              Ran(c, world, start, refreshes).activities == Shown(world, refreshes[|refreshes| - 1].at, start)
    decreases |refreshes|
  {
    if refreshes != [] {
      var r := refreshes[0];
      var next := Refreshed(c, world, start, r);
      if r.ending.Read? || r.ending.UnreadableAfter? {
        TakenIsWhole(c, world, start, r.now, r.at, last);
      }
      assert Whole(next, world, start, r.at);
      RunIsWhole(next, world, start, refreshes[1..], r.at);
    }
  }

  /** The windowed cache is the whole read. Where every activity is shown within the window less the hours
      between whole reads, then through any mix of window reads, whole reads, unreadable answers and
      failures that tear the cache, every read that succeeds leaves exactly what the account then shows. */
  lemma CacheIsWholeRead(world: set<Activity>, start: int, refreshes: seq<Refresh>, since: int)
    requires InTurn(refreshes, since) && refreshes != [] && refreshes[|refreshes| - 1].ending.Read?
    requires forall a :: a in world ==> Timely(a)
    ensures Ran(COLD, world, start, refreshes).activities == Shown(world, refreshes[|refreshes| - 1].at, start)
  {
    RunIsWhole(COLD, world, start, refreshes, since);
  }

  const LATE := Activity(Name("late"), 1, WINDOW - FULL_EVERY + 3)

  /** Two seconds later than the margin and it can be missed: shown just after a whole read, dated just
      outside the last window before the next. */
  lemma LateActivityIsMissed()
    ensures var whole, window := Refresh(LATE.shownAt - 1, LATE.shownAt - 1, Read),
                                 Refresh(WINDOW + 1, WINDOW + 1, Read);
            InTurn([whole, window], 0) && LATE in Shown({LATE}, window.at, 0) &&
            LATE.shownAt == LATE.date + (WINDOW - FULL_EVERY) + 2 &&
            LATE !in Ran(COLD, {LATE}, 0, [whole, window]).activities
  {
    var whole, window := Refresh(LATE.shownAt - 1, LATE.shownAt - 1, Read), Refresh(WINDOW + 1, WINDOW + 1, Read);
    var refreshes := [whole, window];
    assert refreshes[1..] == [window] && refreshes[1..][1..] == [];
    var first := Refreshed(COLD, {LATE}, 0, whole);
    assert first == Cache({}, Some(LATE.shownAt - 1));
    var second := Refreshed(first, {LATE}, 0, window);
    assert After(first, window.now, 0) == 1;
    assert Ran(first, {LATE}, 0, refreshes[1..]) == Ran(second, {LATE}, 0, refreshes[1..][1..]);
    assert Ran(COLD, {LATE}, 0, refreshes) == Ran(first, {LATE}, 0, refreshes[1..]);
  }

  // ------------------------------------------------------------------ the ledger, in place

  ghost predicate Keyed(world: set<Activity>) {
    forall a, b :: a in world && b in world && a.id == b.id ==> a == b
  }

  class ActivityLedger {
    const start: int
    var kept: map<Name, Activity>
    var fullAt: Option<int>
    var busy: bool
    var attempted: Option<int>
    var readAt: Option<int>

    function Now(): Cache
      reads this
    {
      Cache(kept.Values, fullAt)
    }

    ghost predicate Valid(world: set<Activity>)
      reads this
    {
      Keyed(world) && forall id :: id in kept ==> kept[id].id == id && kept[id] in world
    }

    constructor (start: int)
      ensures this.start == start && Now() == COLD && kept == map[] && !busy && readAt == None && attempted == None
    {
      this.start := start;
      kept, fullAt, busy, attempted, readAt := map[], None, false, None, None;
    }

    /** `update(...)`: each fetched row under its id. */
    method Keep(ghost world: set<Activity>, fetched: seq<Activity>)
      requires Valid(world) && forall a :: a in fetched ==> a in world
      modifies this`kept
      ensures Valid(world) && kept.Values == old(kept).Values + set a | a in fetched
    {
      for i := 0 to |fetched|
        invariant Valid(world) && kept.Values == old(kept).Values + set a | a in fetched[..i]
      {
        var a := fetched[i];
        assert fetched[..i + 1] == fetched[..i] + [a];
        assert a in world;
        KeepsOthers(kept, a, world);
        kept := kept[a.id := a];
      }
      assert fetched[..|fetched|] == fetched;
    }

    /** Whether a refresh is due: none is running and the last began long enough ago; it is claimed at once. */
    method Claim(now: int) returns (due: bool)
      modifies this`busy, this`attempted
      ensures due <==> !old(busy) && (old(attempted).Some? ==> now - old(attempted).value >= EVERY)
      ensures busy == (old(busy) || due) && attempted == if due then Some(now) else old(attempted)
    {
      due := !busy && (attempted.None? || now - attempted.value >= EVERY);
      if due {
        busy, attempted := true, Some(now);
      }
    }

    /** One refresh, from the account's answer for what is dated after `After`. */
    method Refresh(ghost world: set<Activity>, r: Refresh, fetched: seq<Activity>, torn: map<Name, Activity>)
      requires Valid(world)
      requires forall a :: a in fetched <==> a in Shown(world, r.at, After(Now(), r.now, start))
      requires r.ending.Failed? ==> r.ending.torn == torn.Values &&
                                    forall id :: id in torn ==> torn[id].id == id && torn[id] in world
      modifies this`kept, this`fullAt, this`busy, this`readAt
      ensures Valid(world) && Now() == Refreshed(old(Now()), world, start, r) && !busy
      ensures readAt == if r.ending.Read? then Some(r.at) else old(readAt)
    {
      match r.ending {
        case UnreadableBefore =>
        case Failed(_) =>
          kept, fullAt := torn, None;
        case _ =>
          if IsFull(Now(), r.now) {
            kept, fullAt := map[], Some(r.now);
          }
          Keep(world, fetched);
          assert (set a | a in fetched) == Shown(world, r.at, old(After(Now(), r.now, start)));
      }
      if r.ending.Read? {
        readAt := Some(r.at);
      }
      busy := false;
    }
  }

  /** An id already kept is the same activity. */
  lemma KeepsOthers(kept: map<Name, Activity>, a: Activity, world: set<Activity>)
    requires Keyed(world) && a in world && forall id :: id in kept ==> kept[id].id == id && kept[id] in world
    ensures kept[a.id := a].Values == kept.Values + {a}
  {
    var after := kept[a.id := a];
    forall x | x in kept.Values ensures x in after.Values {
      assert kept[x.id] == x;
      assert after[x.id] == x;
    }
    assert after[a.id] == a;
  }

  // ------------------------------------------------------------------ every page

  /** The account's answer in pages of a hundred: the rows after the one the token names. */
  function PageAfter(rows: seq<Activity>, since: nat): seq<Activity>
    requires since <= |rows|
  {
    if |rows| - since < PAGE then rows[since..] else rows[since..since + PAGE]
  }

  /** Read every page; None where the history runs past the most pages read. */
  method ActivitiesAfter(rows: seq<Activity>) returns (all: Option<seq<Activity>>)
    requires forall i, j :: 0 <= i < j < |rows| ==> rows[i].id != rows[j].id
    ensures |rows| < PAGE * MAX_PAGES ==> all == Some(rows)
    ensures |rows| >= PAGE * MAX_PAGES ==> all == None
  {
    var out: seq<Activity>, seen: set<Name>, token: nat := [], {}, 0;
    for page := 0 to MAX_PAGES
      invariant token == page * PAGE <= |rows|
      invariant out == rows[..token] && seen == set a | a in rows[..token] :: a.id
    {
      var answer := PageAfter(rows, token);
      var found := 0;
      for i := 0 to |answer|
        invariant found == i && out == rows[..token + i] && seen == set a | a in rows[..token + i] :: a.id
      {
        assert answer[i] == rows[token + i];
        assert answer[i].id !in seen;
        if answer[i].id !in seen {
          assert rows[..token + i + 1] == rows[..token + i] + [answer[i]];
          seen, out, found := seen + {answer[i].id}, out + [answer[i]], found + 1;
        }
      }
      if found == 0 || |answer| < PAGE {
        assert rows[..token + |answer|] == rows;
        return Some(out);
      }
      token := token + |answer|;
    }
    all := None;
  }
}
