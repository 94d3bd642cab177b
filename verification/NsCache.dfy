/**
 * The name cache (src/nscache.c:39-105): a fixed array of records that expire, which behaves like a
 * map from names to recent answers of the resolver.
 */
module NsCache {
  import opened Bytes
  import opened DnsResolve
  import opened DnsClient

  const NAME_LENGTH := 32
  const RECORDS_LIMIT := 1024
  const LIFETIME := 900

  datatype Record = Record(addr: seq<byte>, expiry: nat, name: seq<byte>)

  const BLANK := Record([0, 0, 0, 0], 0, [])

  /** One call: the name, the clock, what inet_pton makes of the name, and what the resolver says if asked. */
  datatype Call = Call(name: seq<byte>, now: nat, literal: Option<seq<byte>>, resolved: Option<seq<byte>>)

  /** What a call reports, and whether the resolver was asked for it. */
  datatype Outcome = Outcome(result: Option<seq<byte>>, asked: bool)

  // ---------------------------------------------------------------------------------------------
  // One call
  // ---------------------------------------------------------------------------------------------

  predicate Serves(r: Record, name: seq<byte>, now: nat) {
    r.expiry > now && r.name == name
  }

  /** The first record that serves, or the number of records when none does. */
  function FirstServing(cs: seq<Record>, name: seq<byte>, now: nat): (i: nat)
    ensures i <= |cs| && (i < |cs| ==> Serves(cs[i], name, now))
    ensures forall j :: 0 <= j < i ==> !Serves(cs[j], name, now)
  {
    if cs == [] || Serves(cs[0], name, now) then 0 else FirstServing(cs[1..], name, now) + 1
  }

  function FirstExpired(cs: seq<Record>, now: nat): (i: nat)
    ensures i <= |cs| && (i < |cs| ==> cs[i].expiry <= now)
    ensures forall j :: 0 <= j < i ==> cs[j].expiry > now
  {
    if cs == [] || cs[0].expiry <= now then 0 else FirstExpired(cs[1..], now) + 1
  }

  function Slot(cs: seq<Record>, now: nat): (v: nat)
    requires cs != []
    ensures v < |cs|
  {
    if FirstExpired(cs, now) < |cs| then FirstExpired(cs, now) else now % |cs|
  }

  function Stored(cs: seq<Record>, now: nat, name: seq<byte>, addr: seq<byte>): (r: seq<Record>)
    requires cs != []
    ensures |r| == |cs|
  {
    cs[Slot(cs, now) := Record(addr, now + LIFETIME, name)]
  }

  /** nsaddr_cached, on values. */
  function Lookup(cs: seq<Record>, c: Call): (r: (seq<Record>, Outcome))
    requires cs != []
    ensures |r.0| == |cs|
  {
    if c.literal.Some? then (cs, Outcome(c.literal, false))
    else if |c.name| >= NAME_LENGTH then (cs, Outcome(c.resolved, true))
    else
      var i := FirstServing(cs, c.name, c.now);
      if i < |cs| then (cs, Outcome(Some(cs[i].addr), false))
      else if c.resolved.None? then (cs, Outcome(None, true))
      else (Stored(cs, c.now, c.name, c.resolved.value), Outcome(c.resolved, true))
  }

  // ---------------------------------------------------------------------------------------------
  // The map
  // ---------------------------------------------------------------------------------------------

  datatype Entry = Entry(addr: seq<byte>, expiry: nat)

  type Names = map<seq<byte>, Entry>

  /** Records that have not expired have different names. */
  ghost predicate Distinct(cs: seq<Record>, now: nat) {
    forall i, j :: 0 <= i < j < |cs| && cs[i].expiry > now && cs[j].expiry > now ==> cs[i].name != cs[j].name
  }

  function NamesIn(cs: seq<Record>, now: nat): (s: set<seq<byte>>)
    ensures forall x :: x in s <==> FirstServing(cs, x, now) < |cs|
  {
    if cs == [] then {}
    else NamesIn(cs[1..], now) + (if cs[0].expiry > now then {cs[0].name} else {})
  }

  /** The map the array stands for. */
  function View(cs: seq<Record>, now: nat): (m: Names)
    ensures m.Keys == NamesIn(cs, now)
  {
    map n | n in NamesIn(cs, now) :: EntryFor(cs, n, now)
  }

  function EntryFor(cs: seq<Record>, n: seq<byte>, now: nat): Entry
    requires FirstServing(cs, n, now) < |cs|
  {
    var r := cs[FirstServing(cs, n, now)];
    Entry(r.addr, r.expiry)
  }

  /** What an expiring map still holds at a later time. */
  function Fresh(m: Names, now: nat): Names {
    map n | n in m && m[n].expiry > now :: m[n]
  }

  /** Under Distinct the record that serves a name is the only one that does. */
  lemma OnlyOne(cs: seq<Record>, now: nat, n: seq<byte>, i: nat)
    requires Distinct(cs, now) && i < |cs| && Serves(cs[i], n, now)
    ensures FirstServing(cs, n, now) == i
  {
    var j := FirstServing(cs, n, now);
    assert j <= i && Serves(cs[j], n, now);
  }

  lemma ServingLater(cs: seq<Record>, now: nat, later: nat, n: seq<byte>)
    requires Distinct(cs, now) && now <= later
    ensures var i, j := FirstServing(cs, n, later), FirstServing(cs, n, now);
      i == if j < |cs| && cs[j].expiry > later then j else |cs|
  {
    var i, j := FirstServing(cs, n, later), FirstServing(cs, n, now);
    if i < |cs| {
      OnlyOne(cs, now, n, i);
    } else if j < |cs| {
      assert !Serves(cs[j], n, later);
    }
  }

  /** Time passing on the array is time passing on the map. */
  lemma ViewLater(cs: seq<Record>, now: nat, later: nat)
    requires Distinct(cs, now) && now <= later
    ensures Distinct(cs, later) && View(cs, later) == Fresh(View(cs, now), later)
  {
    forall n
      ensures n in View(cs, later) <==> n in Fresh(View(cs, now), later)
      ensures n in View(cs, later) ==> View(cs, later)[n] == View(cs, now)[n]
    {
      ServingLater(cs, now, later, n);
    }
  }

  /** The names given up when an entry is stored: none while there is an expired record. */
  ghost function GivenUp(cs: seq<Record>, now: nat): set<seq<byte>>
    requires cs != []
  {
    if FirstExpired(cs, now) < |cs| then {} else {cs[now % |cs|].name}
  }

  lemma DistinctTail(cs: seq<Record>, now: nat)
    requires cs != [] && Distinct(cs, now)
    ensures Distinct(cs[1..], now)
    ensures cs[0].expiry > now ==> cs[0].name !in NamesIn(cs[1..], now)
  {
    var tail := cs[1..];
    forall i, j | 0 <= i < j < |tail| && tail[i].expiry > now && tail[j].expiry > now
      ensures tail[i].name != tail[j].name
    {
      assert tail[i] == cs[i + 1] && tail[j] == cs[j + 1];
    }
    var k := FirstServing(tail, cs[0].name, now);
    if k < |tail| {
      assert tail[k] == cs[k + 1];
    }
  }

  lemma OneMore<T>(s: set<T>, x: T)
    requires x !in s
    ensures |s + {x}| == |s| + 1
  {
  }

  lemma NamesInTail(cs: seq<Record>, now: nat)
    requires cs != [] && Distinct(cs, now)
    ensures |NamesIn(cs, now)| == |NamesIn(cs[1..], now)| + (if cs[0].expiry > now then 1 else 0)
  {
    DistinctTail(cs, now);
    if cs[0].expiry > now {
      OneMore(NamesIn(cs[1..], now), cs[0].name);
    } else {
      assert NamesIn(cs, now) == NamesIn(cs[1..], now);
    }
  }

  /** The map is full exactly when no record has expired. */
  lemma {:induction false} FullExactlyWhen(cs: seq<Record>, now: nat)
    requires Distinct(cs, now)
    ensures |View(cs, now)| <= |cs|
    ensures |View(cs, now)| == |cs| <==> FirstExpired(cs, now) == |cs|
  {
    assert |View(cs, now)| == |View(cs, now).Keys|;
    if cs != [] {
      NamesInTail(cs, now);
      DistinctTail(cs, now);
      FullExactlyWhen(cs[1..], now);
      assert |View(cs[1..], now)| == |View(cs[1..], now).Keys|;
    }
  }

  // ---------------------------------------------------------------------------------------------
  // Storing
  // ---------------------------------------------------------------------------------------------

  lemma StoredDistinct(cs: seq<Record>, now: nat, name: seq<byte>, addr: seq<byte>)
    requires cs != [] && Distinct(cs, now) && FirstServing(cs, name, now) == |cs|
    ensures Distinct(Stored(cs, now, name, addr), now)
  {
  }

  lemma StoredAt(cs: seq<Record>, now: nat, name: seq<byte>, addr: seq<byte>, n: seq<byte>)
    requires cs != [] && Distinct(cs, now) && FirstServing(cs, name, now) == |cs| && Distinct(Stored(cs, now, name, addr), now)
    ensures var i, v := FirstServing(cs, n, now), Slot(cs, now);
      FirstServing(Stored(cs, now, name, addr), n, now) == if n == name then v else if i == v then |cs| else i
  {
    var after := Stored(cs, now, name, addr);
    var v := Slot(cs, now);
    var i, j := FirstServing(cs, n, now), FirstServing(after, n, now);
    if n == name {
      OnlyOne(after, now, n, v);
    } else {
      if j < |cs| {
        OnlyOne(cs, now, n, j);
      }
      if i < |cs| && i != v {
        OnlyOne(after, now, n, i);
      }
    }
  }

  lemma GivenUpAt(cs: seq<Record>, now: nat, n: seq<byte>)
    requires cs != [] && Distinct(cs, now)
    ensures n in GivenUp(cs, now) <==> FirstServing(cs, n, now) == Slot(cs, now)
  {
    var v := Slot(cs, now);
    if cs[v].expiry > now && n == cs[v].name {
      OnlyOne(cs, now, n, v);
    }
  }

  lemma StoredViewAt(cs: seq<Record>, now: nat, name: seq<byte>, addr: seq<byte>, n: seq<byte>)
    requires cs != [] && Distinct(cs, now) && FirstServing(cs, name, now) == |cs| && Distinct(Stored(cs, now, name, addr), now)
    ensures var m := View(Stored(cs, now, name, addr), now);
      && (n in m <==> n == name || (n in View(cs, now) && n !in GivenUp(cs, now)))
      && (n in m ==> m[n] == if n == name then Entry(addr, now + LIFETIME) else View(cs, now)[n])
  {
    StoredAt(cs, now, name, addr, n);
    GivenUpAt(cs, now, n);
  }

  /** An entry is given up only when the map is full, and then it is one. */
  lemma GivenUpOnlyWhenFull(cs: seq<Record>, now: nat)
    requires cs != [] && Distinct(cs, now)
    ensures if |View(cs, now)| == |cs| then (exists n :: n in View(cs, now) && GivenUp(cs, now) == {n}) else GivenUp(cs, now) == {}
  {
    FullExactlyWhen(cs, now);
    var v := Slot(cs, now);
    if FirstExpired(cs, now) == |cs| {
      GivenUpAt(cs, now, cs[v].name);
    }
  }

  /** Storing enters the name into the map, and takes nothing out but what is given up. */
  lemma StoringRefines(cs: seq<Record>, now: nat, name: seq<byte>, addr: seq<byte>)
    requires cs != [] && Distinct(cs, now) && FirstServing(cs, name, now) == |cs|
    ensures Distinct(Stored(cs, now, name, addr), now)
    ensures View(Stored(cs, now, name, addr), now) == Replace(View(cs, now), name, Entry(addr, now + LIFETIME), GivenUp(cs, now))
  {
    StoredDistinct(cs, now, name, addr);
    var before, m, gone := View(cs, now), View(Stored(cs, now, name, addr), now), GivenUp(cs, now);
    forall n
      ensures n in m <==> n == name || (n in before && n !in gone)
      ensures n in m ==> m[n] == if n == name then Entry(addr, now + LIFETIME) else before[n]
    {
      StoredViewAt(cs, now, name, addr, n);
    }
    SameMap(m, before, gone, name, Entry(addr, now + LIFETIME));
  }

  lemma SameMap(m: Names, before: Names, gone: set<seq<byte>>, name: seq<byte>, e: Entry)
    requires forall n :: n in m <==> n == name || (n in before && n !in gone)
    requires forall n :: n in m ==> m[n] == if n == name then e else before[n]
    ensures m == Replace(before, name, e, gone)
  {
  }

  /** `name` enters the map and `gone` leaves it. */
  function Replace(m: Names, name: seq<byte>, e: Entry, gone: set<seq<byte>>): Names {
    (m - gone)[name := e]
  }

  /** The same call on a map that holds fresh entries only and gives up `gone` when it stores. */
  function MapCall(m: Names, c: Call, gone: set<seq<byte>>): (Names, Outcome) {
    if c.literal.Some? then (m, Outcome(c.literal, false))
    else if |c.name| >= NAME_LENGTH then (m, Outcome(c.resolved, true))
    else if c.name in m then (m, Outcome(Some(m[c.name].addr), false))
    else if c.resolved.None? then (m, Outcome(None, true))
    else (Replace(m, c.name, Entry(c.resolved.value, c.now + LIFETIME), gone), Outcome(c.resolved, true))
  }

  predicate Stores(cs: seq<Record>, c: Call) {
    c.literal.None? && |c.name| < NAME_LENGTH && FirstServing(cs, c.name, c.now) == |cs| && c.resolved.Some?
  }

  lemma StoringCall(cs: seq<Record>, c: Call)
    requires cs != [] && Distinct(cs, c.now) && Stores(cs, c)
    ensures var (after, outcome) := Lookup(cs, c);
      && Distinct(after, c.now)
      && (View(after, c.now), outcome) == MapCall(View(cs, c.now), c, GivenUp(cs, c.now))
  {
    StoringRefines(cs, c.now, c.name, c.resolved.value);
    MapStores(View(cs, c.now), c, GivenUp(cs, c.now));
  }

  lemma MapStores(m: Names, c: Call, gone: set<seq<byte>>)
    requires c.literal.None? && |c.name| < NAME_LENGTH && c.name !in m && c.resolved.Some?
    ensures MapCall(m, c, gone) == (Replace(m, c.name, Entry(c.resolved.value, c.now + LIFETIME), gone), Outcome(c.resolved, true))
  {
  }

  /** A call on the array is a call on the map. */
  lemma LookupRefines(cs: seq<Record>, c: Call)
    requires cs != [] && Distinct(cs, c.now)
    ensures var (after, outcome) := Lookup(cs, c);
      && Distinct(after, c.now)
      && (View(after, c.now), outcome) == MapCall(View(cs, c.now), c, GivenUp(cs, c.now))
  {
    if Stores(cs, c) {
      StoringCall(cs, c);
    } else {
      assert Lookup(cs, c).0 == cs;
      assert c.name in View(cs, c.now) <==> FirstServing(cs, c.name, c.now) < |cs|;
    }
  }

  // ---------------------------------------------------------------------------------------------
  // Runs
  // ---------------------------------------------------------------------------------------------

  /** The array after some calls, starting blank. */
  function After(calls: seq<Call>): (cs: seq<Record>)
    ensures |cs| == RECORDS_LIMIT
  {
    if calls == [] then seq(RECORDS_LIMIT, _ => BLANK)
    else Lookup(After(calls[..|calls| - 1]), calls[|calls| - 1]).0
  }

  function OutcomeOf(calls: seq<Call>, k: nat): Outcome
    requires k < |calls|
  {
    Lookup(After(calls[..k]), calls[k]).1
  }

  /** The clock does not go back, and has reached `now`. */
  predicate Ordered(calls: seq<Call>, now: nat) {
    && (forall i, j :: 0 <= i < j < |calls| ==> calls[i].now <= calls[j].now)
    && (calls != [] ==> calls[|calls| - 1].now <= now)
  }

  lemma OrderedBefore(calls: seq<Call>, now: nat, k: nat)
    requires Ordered(calls, now) && k < |calls|
    ensures Ordered(calls[..k], calls[k].now) && calls[k].now <= now
  {
    assert k < |calls| - 1 ==> calls[k].now <= calls[|calls| - 1].now;
  }

  /** No call was made later than `now`. */
  predicate Past(calls: seq<Call>, now: nat) {
    forall j :: 0 <= j < |calls| ==> calls[j].now <= now
  }

  /**
   * Whenever the clock shows no less than at any call before, in whatever order those were made, no two
   * records in use have the same name.
   */
  lemma {:induction false} RunDistinct(calls: seq<Call>, now: nat)
    requires Past(calls, now)
    ensures Distinct(After(calls), now)
  {
    if calls != [] {
      RunDistinct(calls[..|calls| - 1], now);
      LookupDistinct(After(calls[..|calls| - 1]), calls[|calls| - 1], now);
    }
  }

  lemma LookupDistinct(cs: seq<Record>, c: Call, now: nat)
    requires cs != [] && Distinct(cs, now) && c.now <= now
    ensures Distinct(Lookup(cs, c).0, now)
  {
    forall i | 0 <= i < |cs| && c.literal.None? && FirstServing(cs, c.name, c.now) == |cs| && cs[i].name == c.name
      ensures cs[i].expiry <= now
    {
      assert !Serves(cs[i], c.name, c.now);
    }
  }

  /** Call `j` asked the resolver, and `r` holds the answer. */
  predicate Supplied(calls: seq<Call>, j: nat, r: Record)
    requires j < |calls|
  {
    && OutcomeOf(calls, j).asked && calls[j].name == r.name
    && calls[j].resolved == Some(r.addr) && r.expiry == calls[j].now + LIFETIME
  }

  ghost predicate Sourced(calls: seq<Call>, r: Record) {
    r.expiry == 0 || exists j: nat :: j < |calls| && Supplied(calls, j, r)
  }

  lemma SuppliedStill(calls: seq<Call>, c: Call, j: nat, r: Record)
    requires j < |calls| && Supplied(calls, j, r)
    ensures Supplied(calls + [c], j, r)
  {
    assert (calls + [c])[..j] == calls[..j];
  }

  lemma SourcedStill(calls: seq<Call>, c: Call, r: Record)
    requires Sourced(calls, r)
    ensures Sourced(calls + [c], r)
  {
    if r.expiry != 0 {
      var j: nat :| j < |calls| && Supplied(calls, j, r);
      SuppliedStill(calls, c, j, r);
    }
  }

  /** Every record in use holds what the resolver answered to a call for that very name. */
  lemma {:induction false} RecordsSourced(calls: seq<Call>, i: nat)
    requires i < RECORDS_LIMIT
    ensures Sourced(calls, After(calls)[i])
  {
    if calls != [] {
      var last := |calls| - 1;
      var before, c := calls[..last], calls[last];
      assert calls == before + [c];
      if After(calls)[i] == After(before)[i] {
        RecordsSourced(before, i);
        SourcedStill(before, c, After(before)[i]);
      } else {
        assert Supplied(calls, last, After(calls)[i]);
      }
    }
  }

  /**
   * An answer given without asking the resolver is either the address the name spells, or what the
   * resolver answered to an earlier call for the same name less than LIFETIME seconds before; that
   * call's clock reading is not in the future unless some earlier call's is.
   */
  lemma HitIsRecent(calls: seq<Call>, k: nat)
    requires k < |calls| && !OutcomeOf(calls, k).asked && calls[k].literal.None?
    ensures exists j: nat ::
      && j < k && OutcomeOf(calls, j).asked && calls[j].name == calls[k].name
      && calls[j].resolved == OutcomeOf(calls, k).result && calls[j].resolved.Some?
      && calls[k].now < calls[j].now + LIFETIME
      && (Past(calls[..k], calls[k].now) ==> calls[j].now <= calls[k].now)
  {
    var before := calls[..k];
    var cs := After(before);
    var i := FirstServing(cs, calls[k].name, calls[k].now);
    RecordsSourced(before, i);
    var j: nat :| j < |before| && Supplied(before, j, cs[i]);
    assert before[..j] == calls[..j] && before[j] == calls[j];
  }

  // ---------------------------------------------------------------------------------------------
  // When the array is large enough
  // ---------------------------------------------------------------------------------------------

  /** The map that never gives anything up. */
  function Ideal(calls: seq<Call>): Names {
    if calls == [] then map[]
    else
      var c := calls[|calls| - 1];
      MapCall(Fresh(Ideal(calls[..|calls| - 1]), c.now), c, {}).0
  }

  function NamesCalled(calls: seq<Call>): set<seq<byte>> {
    set c | c in calls :: c.name
  }

  lemma {:induction false} KeysCalled(calls: seq<Call>)
    ensures Ideal(calls).Keys <= NamesCalled(calls)
  {
    if calls != [] {
      KeysCalled(calls[..|calls| - 1]);
      assert calls[|calls| - 1] in calls;
    }
  }

  /**
   * As long as no more different names are looked up than there are records, the cache is at every time
   * the map that never gives an entry up before it expires.
   */
  lemma {:induction false} CacheIsIdeal(calls: seq<Call>, now: nat)
    requires Ordered(calls, now) && |NamesCalled(calls)| <= RECORDS_LIMIT
    ensures Distinct(After(calls), now) && View(After(calls), now) == Fresh(Ideal(calls), now)
  {
    RunDistinct(calls, now);
    if calls == [] {
      BlankView(now);
    } else {
      var before, c := calls[..|calls| - 1], calls[|calls| - 1];
      OrderedBefore(calls, now, |calls| - 1);
      FewerNames(calls);
      CacheIsIdeal(before, c.now);
      KeysCalled(before);
      LookupRefines(After(before), c);
      assert c in calls;
      StoreHasRoom(After(before), c, NamesCalled(calls));
      ViewLater(After(calls), c.now, now);
    }
  }

  lemma BlankView(now: nat)
    ensures View(After([]), now) == map[]
  {
    assert NamesIn(After([]), now) == {};
  }

  lemma FewerNames(calls: seq<Call>)
    requires calls != []
    ensures NamesCalled(calls[..|calls| - 1]) <= NamesCalled(calls)
    ensures |NamesCalled(calls[..|calls| - 1])| <= |NamesCalled(calls)|
  {
    Smaller(NamesCalled(calls[..|calls| - 1]), NamesCalled(calls));
  }

  lemma Smaller<T>(a: set<T>, b: set<T>)
    requires a <= b
    ensures |a| <= |b|
  {
    assert b == a + (b - a);
  }

  lemma RoomLeft(m: Names, name: seq<byte>, names: set<seq<byte>>)
    requires m.Keys <= names && name in names && name !in m
    ensures |m| < |names|
  {
    Smaller(m.Keys + {name}, names);
    assert |m.Keys| == |m|;
  }

  /** With a record for every name, a call gives nothing up. */
  lemma StoreHasRoom(cs: seq<Record>, c: Call, names: set<seq<byte>>)
    requires cs != [] && Distinct(cs, c.now) && View(cs, c.now).Keys <= names && c.name in names && |names| <= |cs|
    ensures MapCall(View(cs, c.now), c, GivenUp(cs, c.now)) == MapCall(View(cs, c.now), c, {})
  {
    if c.name !in View(cs, c.now) {
      RoomLeft(View(cs, c.now), c.name, names);
      FullExactlyWhen(cs, c.now);
    }
  }

  lemma OutcomeAnyway(m: Names, c: Call, gone: set<seq<byte>>)
    ensures MapCall(m, c, gone).1 == MapCall(m, c, {}).1
  {
  }

  /** And every call is answered, from the cache or by asking, as that map would. */
  lemma OutcomesIdeal(calls: seq<Call>, k: nat)
    requires k < |calls| && Ordered(calls[..k], calls[k].now) && |NamesCalled(calls[..k])| <= RECORDS_LIMIT
    ensures OutcomeOf(calls, k) == MapCall(Fresh(Ideal(calls[..k]), calls[k].now), calls[k], {}).1
  {
    CacheIsIdeal(calls[..k], calls[k].now);
    OutcomeAnyway(View(After(calls[..k]), calls[k].now), calls[k], GivenUp(After(calls[..k]), calls[k].now));
    LookupRefines(After(calls[..k]), calls[k]);
  }

  lemma {:induction false} IdealKeeps(calls: seq<Call>, j: nat, m: nat, now: nat)
    requires j < m <= |calls| && Ordered(calls, now) && OutcomeOf(calls, j).asked && calls[j].resolved.Some?
    requires |calls[j].name| < NAME_LENGTH && now < calls[j].now + LIFETIME && |NamesCalled(calls)| <= RECORDS_LIMIT
    ensures calls[j].name in Ideal(calls[..m])
    ensures Ideal(calls[..m])[calls[j].name] == Entry(calls[j].resolved.value, calls[j].now + LIFETIME)
    decreases m
  {
    var before, c := calls[..m - 1], calls[m - 1];
    assert calls[..m][..m - 1] == before && calls[..m][m - 1] == c;
    if m - 1 == j {
      IdealMisses(calls, j);
    } else {
      IdealKeeps(calls, j, m - 1, now);
      OrderedBefore(calls, now, m - 1);
    }
  }

  /** A call that asked the resolver found nothing in the map. */
  lemma IdealMisses(calls: seq<Call>, j: nat)
    requires j < |calls| && OutcomeOf(calls, j).asked && |calls[j].name| < NAME_LENGTH
    requires (exists now: nat :: Ordered(calls, now)) && |NamesCalled(calls)| <= RECORDS_LIMIT
    ensures calls[j].literal.None? && calls[j].name !in Fresh(Ideal(calls[..j]), calls[j].now)
  {
    var now: nat :| Ordered(calls, now);
    OrderedBefore(calls, now, j);
    Smaller(NamesCalled(calls[..j]), NamesCalled(calls));
    OutcomesIdeal(calls, j);
  }

  /**
   * As long as no more than 1024 different names are looked up, a call is answered without asking the
   * resolver exactly when its name spells an address, or is at most 31 characters long and was resolved
   * by an earlier call less than 900 seconds before; then that answer is given again.
   */
  lemma HitExactlyWhen(calls: seq<Call>, k: nat)
    requires k < |calls| && Ordered(calls[..k], calls[k].now) && |NamesCalled(calls[..k])| <= 1024
    ensures calls[k].literal.Some? ==> OutcomeOf(calls, k) == Outcome(calls[k].literal, false)
    ensures calls[k].literal.None? ==>
              (!OutcomeOf(calls, k).asked <==> exists j: nat :: Recently(calls, j, k))
    ensures calls[k].literal.None? ==>
              forall j: nat :: Recently(calls, j, k) ==> OutcomeOf(calls, k).result == calls[j].resolved
  {
    if calls[k].literal.None? {
      forall j: nat | Recently(calls, j, k)
        ensures OutcomeOf(calls, k) == Outcome(calls[j].resolved, false)
      {
        RecentIsHit(calls, j, k);
      }
      if !OutcomeOf(calls, k).asked {
        HitIsRecent(calls, k);
        var j: nat :|
          && j < k && OutcomeOf(calls, j).asked && calls[j].name == calls[k].name
          && calls[j].resolved == OutcomeOf(calls, k).result && calls[j].resolved.Some?
          && calls[k].now < calls[j].now + LIFETIME;
        assert Recently(calls, j, k);
      }
    }
  }

  /** Call `j` resolved the name of call `k` less than 900 seconds before it, and the name is not too long to be kept. */
  predicate Recently(calls: seq<Call>, j: nat, k: nat)
    requires k < |calls|
  {
    && j < k && calls[j].name == calls[k].name && |calls[k].name| <= 31
    && OutcomeOf(calls, j).asked && calls[j].resolved.Some? && calls[k].now < calls[j].now + 900
  }

  lemma RecentIsHit(calls: seq<Call>, j: nat, k: nat)
    requires k < |calls| && Ordered(calls[..k], calls[k].now) && |NamesCalled(calls[..k])| <= 1024
    requires calls[k].literal.None? && Recently(calls, j, k)
    ensures OutcomeOf(calls, k) == Outcome(calls[j].resolved, false)
  {
    var before := calls[..k];
    assert before[..j] == calls[..j] && before[j] == calls[j];
    IdealKeeps(before, j, k, calls[k].now);
    assert before[..k] == before;
    OutcomesIdeal(calls, k);
  }

  /** The record at `v`, the first expired one or else one the clock picks, holds the new answer for 900 seconds. */
  predicate Renewed(cs: seq<Record>, c: Call, after: seq<Record>, v: nat)
    requires |cs| == 1024 && c.resolved.Some?
  {
    && v < 1024 && after == cs[v := Record(c.resolved.value, c.now + 900, c.name)]
    && if (forall j :: 0 <= j < 1024 ==> cs[j].expiry > c.now) then v == c.now % 1024
       else cs[v].expiry <= c.now && forall j :: 0 <= j < v ==> cs[j].expiry > c.now
  }

  /** What a call leaves of the records: all of them, or all but the one renewed. */
  lemma LookupLeaves(cs: seq<Record>, c: Call)
    requires |cs| == 1024
    ensures var (after, outcome) := Lookup(cs, c);
      if c.literal.Some? || |c.name| >= 32 || c.resolved.None? || !outcome.asked then after == cs
      else exists v: nat :: Renewed(cs, c, after, v)
  {
    var (after, outcome) := Lookup(cs, c);
    if !(c.literal.Some? || |c.name| >= 32 || c.resolved.None? || !outcome.asked) {
      assert Renewed(cs, c, after, Slot(cs, c.now));
    }
  }

  /** A name too long to be kept is resolved each time. */
  lemma LongNamesAsked(cs: seq<Record>, c: Call)
    requires cs != [] && c.literal.None? && |c.name| >= 32
    ensures Lookup(cs, c) == (cs, Outcome(c.resolved, true))
  {
  }

  // ---------------------------------------------------------------------------------------------
  // When the clock goes back
  // ---------------------------------------------------------------------------------------------

  lemma Misses(cs: seq<Record>, c: Call, addr: seq<byte>, v: nat)
    requires cs != [] && c.literal.None? && |c.name| < NAME_LENGTH && c.resolved == Some(addr) && v < |cs|
    requires forall i :: 0 <= i < |cs| ==> !Serves(cs[i], c.name, c.now)
    requires cs[v].expiry <= c.now && forall i :: 0 <= i < v ==> cs[i].expiry > c.now
    ensures Lookup(cs, c).0 == cs[v := Record(addr, c.now + LIFETIME, c.name)]
  {
    var i, j := FirstServing(cs, c.name, c.now), FirstExpired(cs, c.now);
    assert i == |cs|;
    assert j == v;
  }

  /** Two names looked up at once, and the second again when both have expired. */
  function ThreeCalls(): seq<Call> {
    var a: seq<byte> := [1, 1, 1, 1];
    [Call([109], 0, None, Some(a)), Call([110], 0, None, Some(a)), Call([110], 1000, None, Some(a))]
  }

  lemma AfterOneMore(calls: seq<Call>, c: Call)
    ensures After(calls + [c]) == Lookup(After(calls), c).0
  {
    assert (calls + [c])[..|calls|] == calls;
  }

  lemma ThreeRecords()
    ensures var cs := After(ThreeCalls());
      cs[0].name == [110] && cs[0].expiry == 1900 && cs[1].name == [110] && cs[1].expiry == 900
  {
    var a: seq<byte> := [1, 1, 1, 1];
    var first, second, third := Call([109], 0, None, Some(a)), Call([110], 0, None, Some(a)), Call([110], 1000, None, Some(a));
    assert ThreeCalls() == (([] + [first]) + [second]) + [third];
    AfterOneMore([], first);
    AfterOneMore([] + [first], second);
    AfterOneMore([] + [first] + [second], third);
    ThreeStores(After([]), first, second, third, a);
  }

  lemma ThreeStores(c0: seq<Record>, first: Call, second: Call, third: Call, a: seq<byte>)
    requires |c0| >= 2 && forall i :: 0 <= i < |c0| ==> c0[i].expiry == 0
    requires first == Call([109], 0, None, Some(a)) && second == Call([110], 0, None, Some(a)) && third == Call([110], 1000, None, Some(a))
    ensures var cs := Lookup(Lookup(Lookup(c0, first).0, second).0, third).0;
      cs[0].name == [110] && cs[0].expiry == 1900 && cs[1].name == [110] && cs[1].expiry == 900
  {
    Misses(c0, first, a, 0);
    var c1 := Lookup(c0, first).0;
    assert [109][0] != [110][0];
    Misses(c1, second, a, 1);
    var c2 := Lookup(c1, second).0;
    Misses(c2, third, a, 0);
  }

  /**
   * With a clock that goes back the array is no map: after these calls, and back at second 500, two
   * unexpired records have the same name, and the one that serves it is from the future.
   */
  lemma ClockGoingBackBreaks()
    ensures Ordered(ThreeCalls(), 1000) && Distinct(After(ThreeCalls()), 1000)
    ensures !Distinct(After(ThreeCalls()), 500)
    ensures var cs := After(ThreeCalls()); FirstServing(cs, [110], 500) == 0 && cs[0].expiry > 500 + LIFETIME
  {
    ThreeRecords();
    RunDistinct(ThreeCalls(), 1000);
    var cs := After(ThreeCalls());
    assert Serves(cs[0], [110], 500);
  }

  // ---------------------------------------------------------------------------------------------
  // In place
  // ---------------------------------------------------------------------------------------------

  class Cache {
    const records: array<Record>

    ghost predicate Valid()
      reads this, records
    {
      records.Length == RECORDS_LIMIT && forall k :: 0 <= k < RECORDS_LIMIT ==> |records[k].addr| == 4
    }

    ghost function Contents(): seq<Record>
      reads this, records
    {
      records[..]
    }

    constructor ()
      ensures Valid() && fresh(records) && Contents() == After([])
    {
      records := new Record[RECORDS_LIMIT](_ => BLANK);
      new;
      assert records[..] == After([]);
    }

    /**
     * nsaddr_cached.  `literal` is what inet_pton makes of the name; `net` is the network and `memory`
     * the resolver's buffer in case it is asked.
     */
    method NsaddrCached(net: seq<Attempt>, memory: seq<byte>, hostname: seq<byte>, now: nat, literal: Option<seq<byte>>, addr: array<byte>)
      returns (ok: bool)
      requires Valid() && addr.Length == 4 && (literal.Some? ==> |literal.value| == 4)
      requires GoodReplies(net) && |memory| == NAME_SIZE + 1
      requires Lookup(Contents(), Call(hostname, now, literal, Resolution(net, hostname, memory))).1.asked ==> Ends(net, hostname, memory)
      modifies records, addr
      ensures Valid() && Contents() == Lookup(old(Contents()), Call(hostname, now, literal, Resolution(net, hostname, memory))).0
      ensures var result := Lookup(old(Contents()), Call(hostname, now, literal, Resolution(net, hostname, memory))).1.result;
        ok == result.Some? && addr[..] == if ok then result.value else old(addr[..])
    {
      if literal.Some? {
        Put(addr, literal.value);
        return true;
      }
      ghost var log;
      if |hostname| >= NAME_LENGTH {
        ok, log := Nsaddr(net, hostname, memory, addr);
        return;
      }
      var hit := FindServing(hostname, now);
      if hit < records.Length {
        Put(addr, records[hit].addr);
        return true;
      }
      ok := Refresh(net, memory, hostname, now, addr);
    }

    /** A miss: the resolver is asked, and its answer stored. */
    method Refresh(net: seq<Attempt>, memory: seq<byte>, hostname: seq<byte>, now: nat, addr: array<byte>) returns (ok: bool)
      requires Valid() && addr.Length == 4
      requires GoodReplies(net) && |memory| == NAME_SIZE + 1 && Ends(net, hostname, memory)
      modifies records, addr
      ensures Valid() && ok == Resolution(net, hostname, memory).Some?
      ensures Contents() == if ok then Stored(old(Contents()), now, hostname, Resolution(net, hostname, memory).value) else old(Contents())
      ensures addr[..] == if ok then Resolution(net, hostname, memory).value else old(addr[..])
    {
      ghost var log;
      ok, log := Nsaddr(net, hostname, memory, addr);
      if ok {
        StoreAnswer(hostname, now, addr[..]);
      }
    }

    /** The answer goes into the first expired record, or else into one the clock picks. */
    method StoreAnswer(hostname: seq<byte>, now: nat, octets: seq<byte>)
      requires Valid() && |octets| == 4
      modifies records
      ensures Valid() && Contents() == Stored(old(Contents()), now, hostname, octets)
    {
      var update := FindExpired(now);
      if update == records.Length {
        update := now % records.Length;
      }
      records[update] := Record(octets, now + LIFETIME, hostname);
    }

    /** The first loop. */
    method FindServing(hostname: seq<byte>, now: nat) returns (i: nat)
      ensures i == FirstServing(Contents(), hostname, now)
    {
      i := 0;
      while i < records.Length
        invariant i <= records.Length
        invariant FirstServing(Contents(), hostname, now) == i + FirstServing(Contents()[i..], hostname, now)
      {
        if records[i].expiry > now && records[i].name == hostname {
          return;
        }
        assert Contents()[i..][1..] == Contents()[i + 1..];
        i := i + 1;
      }
    }

    /** The second loop. */
    method FindExpired(now: nat) returns (i: nat)
      ensures i == FirstExpired(Contents(), now)
    {
      i := 0;
      while i < records.Length
        invariant i <= records.Length
        invariant FirstExpired(Contents(), now) == i + FirstExpired(Contents()[i..], now)
      {
        if records[i].expiry <= now {
          return;
        }
        assert Contents()[i..][1..] == Contents()[i + 1..];
        i := i + 1;
      }
    }
  }

  method Put(addr: array<byte>, octets: seq<byte>)
    requires addr.Length == |octets|
    modifies addr
    ensures addr[..] == octets
  {
    forall i | 0 <= i < |octets| {
      addr[i] := octets[i];
    }
  }
}
