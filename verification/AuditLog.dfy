/** The audit logger's in-memory side: a ring buffer of the last thousand entries and the queries on it. */
module AuditLog {
  import opened Results

  const MAX_IN_MEMORY: nat := 1000

  /** A value in an entry's untyped data record; `Other` is anything neither a number nor a string. */
  datatype DataValue = Num(n: real) | Str(s: string) | Other

  datatype AuditEntry = AuditEntry(ts: int, agentId: string, cycle: nat, event: string, data: map<string, DataValue>)

  // ----- Queries as expressions ---------------------------------------------------------------

  /** `Array.prototype.slice(begin, end)`: negative positions count from the end, both are clamped. */
  function Slice<T>(s: seq<T>, begin: int, end: int): seq<T> {
    var from := if begin < 0 then Max(|s| + begin, 0) else Min(begin, |s|);
    var to := if end < 0 then Max(|s| + end, 0) else Min(end, |s|);
    if from < to then s[from..to] else []
  }

  /** `slice(-n)` */
  function SliceLast<T>(s: seq<T>, n: int): seq<T> { Slice(s, -n, |s|) }

  function Reverse<T>(s: seq<T>): (r: seq<T>)
    ensures |r| == |s|
  {
    seq(|s|, i requires 0 <= i < |s| => s[|s| - 1 - i])
  }

  function Filter<T>(p: T -> bool, s: seq<T>): seq<T> {
    if s == [] then []
    else Filter(p, s[..|s| - 1]) + (if p(s[|s| - 1]) then [s[|s| - 1]] else [])
  }

  function OfAgent(s: seq<AuditEntry>, agentId: string): seq<AuditEntry> {
    Filter((e: AuditEntry) => e.agentId == agentId, s)
  }

  /** JavaScript truthiness of `data['signature']`. */
  predicate HasSignature(e: AuditEntry) {
    "signature" in e.data &&
    match e.data["signature"] case Num(n) => n != 0.0 case Str(s) => s != "" case Other => true
  }

  predicate IsConfirmation(e: AuditEntry, agentId: string) { e.agentId == agentId && e.event == "TX_CONFIRMED" }

  function SignedBy(s: seq<AuditEntry>, agentId: string): seq<AuditEntry> {
    Filter((e: AuditEntry) => IsConfirmation(e, agentId) && HasSignature(e), s)
  }

  /** The entries `getDailyVolumeSOL` adds up. */
  predicate Counts(e: AuditEntry, agentId: string, startTs: int) {
    IsConfirmation(e, agentId) && e.ts >= startTs && "amountIn" in e.data && e.data["amountIn"].Num?
  }

  function Amount(e: AuditEntry, agentId: string, startTs: int): real {
    if Counts(e, agentId, startTs) then e.data["amountIn"].n else 0.0
  }

  /** The sum of the confirmed amounts of an agent since `startTs`. */
  function Volume(s: seq<AuditEntry>, agentId: string, startTs: int): real {
    if s == [] then 0.0 else Volume(s[..|s| - 1], agentId, startTs) + Amount(s[|s| - 1], agentId, startTs)
  }

  /** One page, newest entry first, as the in-memory branch computes it. */
  function Page(buffer: seq<AuditEntry>, page: int, limit: int): seq<AuditEntry> {
    var total := |buffer|;
    Reverse(Slice(buffer, Max(0, total - page * limit), Max(0, total - (page - 1) * limit)))
  }

  // ----- The logger ---------------------------------------------------------------------------

  /** The whole log is kept as a ghost, so that what eviction hides can be stated. */
  class AuditLogger {
    var buffer: seq<AuditEntry>
    ghost var all: seq<AuditEntry>

    ghost predicate Valid()
      reads this
    {
      buffer == Last(all, MAX_IN_MEMORY)
    }

    constructor ()
      ensures Valid() && all == []
    {
      buffer, all := [], [];
    }

    /** Pushes the entry and drops the oldest one when the buffer has grown beyond its capacity. */
    method Log(e: AuditEntry)
      requires Valid()
      modifies this
      ensures Valid() && all == old(all) + [e]
      ensures buffer == PushBounded(old(buffer), e)
    {
      LastOfPush(all, e);
      buffer := buffer + [e];
      if |buffer| > MAX_IN_MEMORY {
        buffer := buffer[1..];
      }
      all := all + [e];
    }

    /** The last n of the agent's entries among the last thousand of the log; all of them for n = 0. */
    function GetLastN(n: int, agentId: string): (r: seq<AuditEntry>)
      reads this
      requires Valid()
      ensures var visible := OfAgent(Last(all, MAX_IN_MEMORY), agentId);
              n >= 0 ==> r == if n == 0 then visible else Last(visible, n)
    {
      SliceLast(OfAgent(buffer, agentId), n)
    }

    /** The last n of the agent's signed confirmations among the last thousand entries; all for n = 0. */
    function GetLastNTransactions(n: int, agentId: string): (r: seq<AuditEntry>)
      reads this
      requires Valid()
      ensures var visible := SignedBy(Last(all, MAX_IN_MEMORY), agentId);
              n >= 0 ==> r == if n == 0 then visible else Last(visible, n)
      ensures forall e | e in r :: IsConfirmation(e, agentId) && HasSignature(e) && e in Last(all, MAX_IN_MEMORY)
    {
      var p := (e: AuditEntry) => IsConfirmation(e, agentId) && HasSignature(e);
      FilterMeaning(p, buffer);
      SliceMembers(SignedBy(buffer, agentId), -n, |SignedBy(buffer, agentId)|);
      SliceLast(SignedBy(buffer, agentId), n)
    }

    /** Filtering and adding up gives the visible volume of the log. */
    function GetDailyVolumeSOL(agentId: string, startOfDay: int): (r: real)
      reads this
      requires Valid()
      ensures r == Volume(Last(all, MAX_IN_MEMORY), agentId, startOfDay)
    {
      VolumeIsReduce(buffer, agentId, startOfDay);
      Reduce(Filter((e: AuditEntry) => Counts(e, agentId, startOfDay), buffer))
    }

    /** The page that skipping and taking shows of the last thousand entries, newest first. */
    function GetPaginated(page: int, limit: int): (r: (seq<AuditEntry>, nat))
      reads this
      requires Valid()
      ensures r.1 == |Last(all, MAX_IN_MEMORY)|
      ensures page >= 1 && limit >= 1 ==>
                0 <= (page - 1) * limit && r.0 == SkipTake(Reverse(Last(all, MAX_IN_MEMORY)), (page - 1) * limit, limit)
    {
      if page >= 1 && limit >= 1 then
        PageIsSkipTake(buffer, page, limit);
        (Page(buffer, page, limit), |buffer|)
      else (Page(buffer, page, limit), |buffer|)
    }
  }

  lemma SliceMembers<T>(s: seq<T>, begin: int, end: int)
    ensures forall x | x in Slice(s, begin, end) :: x in s
  {
  }

  /** The amounts of confirmations, added up. */
  function Reduce(s: seq<AuditEntry>): real {
    if s == [] then 0.0
    else
      var last := s[|s| - 1];
      Reduce(s[..|s| - 1]) + (if "amountIn" in last.data
          && last.data["amountIn"].Num? then last.data["amountIn"].n else 0.0)
  }

  lemma {:induction false} VolumeIsReduce(s: seq<AuditEntry>, a: string, start: int)
    ensures Reduce(Filter((e: AuditEntry) => Counts(e, a, start), s)) == Volume(s, a, start)
  {
    if s != [] {
      var p := (e: AuditEntry) => Counts(e, a, start);
      var last := s[|s| - 1];
      VolumeIsReduce(s[..|s| - 1], a, start);
      if p(last) {
        var kept := Filter(p, s[..|s| - 1]);
        assert Filter(p, s) == kept + [last] && (kept + [last])[..|kept|] == kept;
      } else {
        assert Filter(p, s) == Filter(p, s[..|s| - 1]) + [] == Filter(p, s[..|s| - 1]);
      }
    }
  }

  /** The buffer's own rule for one more entry. */
  function PushBounded<T>(buffer: seq<T>, e: T): seq<T> {
    if |buffer| >= MAX_IN_MEMORY then (buffer + [e])[1..] else buffer + [e]
  }

  lemma LastOfPush<T>(all: seq<T>, e: T)
    ensures Last(all + [e], MAX_IN_MEMORY) == PushBounded(Last(all, MAX_IN_MEMORY), e)
  {
  }

  /** The buffer after pushing every entry in turn. */
  function PushAll<T>(s: seq<T>): seq<T> {
    if s == [] then [] else PushBounded(PushAll(s[..|s| - 1]), s[|s| - 1])
  }

  lemma {:induction false} PushedIsLast<T>(s: seq<T>)
    ensures PushAll(s) == Last(s, MAX_IN_MEMORY)
  {
    if s != [] {
      PushedIsLast(s[..|s| - 1]);
      assert s == s[..|s| - 1] + [s[|s| - 1]];
      LastOfPush(s[..|s| - 1], s[|s| - 1]);
    }
  }

  /** In every reachable state the buffer is the last thousand entries of the whole log, in order. */
  lemma {:induction false} BufferIsLast<T>(s: seq<T>)
    ensures PushAll(s) == if |s| <= 1000 then s else s[|s| - 1000..]
  {
    PushedIsLast(s);
  }

  // ----- The queries, entry by entry ------------------------------------------------------------

  /** An entry adds to an agent's volume exactly when it is the agent's confirmation, logged at the start of
      the day or later, with a number as its amount. */
  lemma VolumeAppend(s: seq<AuditEntry>, e: AuditEntry, a: string, start: int)
    ensures Volume([], a, start) == 0.0
    ensures Volume(s + [e], a, start) == Volume(s, a, start) +
              (if e.agentId == a && e.event == "TX_CONFIRMED" && start <= e.ts && "amountIn" in e.data
                  && e.data["amountIn"].Num?
               then e.data["amountIn"].n else 0.0)
  {
    assert (s + [e])[..|s|] == s;
  }

  /** An entry joins an agent's entries when it is the agent's, and the agent's transactions when it is also
      a confirmation with a signature that is neither the empty string nor zero; the order is kept. */
  lemma QueriesAppend(s: seq<AuditEntry>, e: AuditEntry, a: string)
    ensures OfAgent([], a) == SignedBy([], a) == []
    ensures OfAgent(s + [e], a) == OfAgent(s, a) + (if e.agentId == a then [e] else [])
    ensures SignedBy(s + [e], a) == SignedBy(s, a) +
              (if e.agentId == a && e.event == "TX_CONFIRMED" && "signature" in e.data
                  && e.data["signature"] != Str("") && e.data["signature"] != Num(0.0)
               then [e] else [])
  {
    FilterAppend((x: AuditEntry) => x.agentId == a, s, e);
    FilterAppend((x: AuditEntry) => IsConfirmation(x, a) && HasSignature(x), s, e);
  }

  lemma FilterAppend<T>(p: T -> bool, s: seq<T>, x: T)
    ensures Filter(p, s + [x]) == Filter(p, s) + (if p(x) then [x] else [])
  {
    assert (s + [x])[..|s|] == s;
  }

  /** The i-th entry of a page counts back from the newest one, past all pages before it; a page is full
      unless the buffer ends on it. */
  lemma PageAt(buffer: seq<AuditEntry>, page: nat, limit: nat, i: nat)
    requires page >= 1 && limit >= 1
    ensures var left := |buffer| - (page - 1) * limit;
            && |Page(buffer, page, limit)| == (if left <= 0 then 0 else if left <= limit then left else limit)
            && (i < |Page(buffer, page, limit)| ==> Page(buffer, page, limit)[i] == buffer[left - 1 - i])
  {
    PageProduct(page, limit);
  }

  // ----- What eviction does to the daily volume ------------------------------------------------

  function Evicted<T>(all: seq<T>): seq<T> {
    if |all| <= MAX_IN_MEMORY then [] else all[..|all| - MAX_IN_MEMORY]
  }

  predicate AmountsNonNegative(s: seq<AuditEntry>) {
    forall e | e in s && e.event == "TX_CONFIRMED" && "amountIn" in e.data
        && e.data["amountIn"].Num? :: e.data["amountIn"].n >= 0.0
  }

  lemma {:induction false} VolumeConcat(s: seq<AuditEntry>, t: seq<AuditEntry>, a: string, start: int)
    ensures Volume(s + t, a, start) == Volume(s, a, start) + Volume(t, a, start)
  {
    if t == [] {
      assert s + t == s;
    } else {
      assert (s + t)[..|s + t| - 1] == s + t[..|t| - 1];
      VolumeConcat(s, t[..|t| - 1], a, start);
    }
  }

  lemma {:induction false} VolumeNonNegative(s: seq<AuditEntry>, a: string, start: int)
    requires AmountsNonNegative(s)
    ensures Volume(s, a, start) >= 0.0
    ensures Volume(s, a, start) == 0.0 <==> forall e | e in s && Counts(e, a, start) :: e.data["amountIn"].n == 0.0
  {
    if s != [] {
      var front := s[..|s| - 1];
      VolumeNonNegative(front, a, start);
      assert forall e | e in s :: e in front || e == s[|s| - 1];
    }
  }

  /** A later start of day counts fewer entries. */
  lemma {:induction false} VolumeRollover(s: seq<AuditEntry>, a: string, early: int, late: int)
    requires AmountsNonNegative(s) && early <= late
    ensures Volume(s, a, late) <= Volume(s, a, early)
  {
    if s != [] {
      VolumeRollover(s[..|s| - 1], a, early, late);
      assert s[|s| - 1] in s;
    }
  }

  /** The volume the policy engine is shown is the true volume less what was evicted. */
  lemma VisibleVolume(all: seq<AuditEntry>, a: string, start: int)
    ensures Volume(all, a, start) == Volume(Last(all, MAX_IN_MEMORY), a, start) + Volume(Evicted(all), a, start)
  {
    assert all == Evicted(all) + Last(all, MAX_IN_MEMORY);
    VolumeConcat(Evicted(all), Last(all, MAX_IN_MEMORY), a, start);
  }

  /** It is exact if and only if no evicted entry of the day confirmed a non-zero amount. */
  lemma VisibleIsTrueIff(all: seq<AuditEntry>, a: string, start: int)
    requires AmountsNonNegative(all)
    ensures Volume(Last(all, MAX_IN_MEMORY), a, start) <= Volume(all, a, start)
    ensures Volume(Last(all, MAX_IN_MEMORY), a, start) == Volume(all, a, start)
            <==> forall e | e in Evicted(all) && Counts(e, a, start) :: e.data["amountIn"].n == 0.0
  {
    VisibleVolume(all, a, start);
    VolumeNonNegative(Evicted(all), a, start);
  }

  /** A thousand entries of any other kind hide a confirmed amount from the engine completely. */
  lemma EvictionHidesVolume(e: AuditEntry, others: seq<AuditEntry>, a: string, start: int)
    requires Counts(e, a, start) && e.data["amountIn"].n > 0.0
    requires |others| == MAX_IN_MEMORY && forall o | o in others :: !Counts(o, a, start)
    ensures Volume([e] + others, a, start) == e.data["amountIn"].n
    ensures Volume(Last([e] + others, MAX_IN_MEMORY), a, start) == 0.0
  {
    assert Last([e] + others, MAX_IN_MEMORY) == others;
    VolumeConcat([e], others, a, start);
    assert [e][..0] == [];
    VolumeOfOthers(others, a, start);
  }

  lemma {:induction false} VolumeOfOthers(s: seq<AuditEntry>, a: string, start: int)
    requires forall o | o in s :: !Counts(o, a, start)
    ensures Volume(s, a, start) == 0.0
  {
    if s != [] {
      assert s[|s| - 1] in s;
      VolumeOfOthers(s[..|s| - 1], a, start);
    }
  }

  // ----- Pages -----------------------------------------------------------------------------------

  lemma ReverseOfSlice<T>(s: seq<T>, from: nat, to: nat)
    requires from <= to <= |s|
    ensures Reverse(s[from..to]) == Reverse(s)[|s| - to..|s| - from]
  {
    var r, t := Reverse(s[from..to]), Reverse(s)[|s| - to..|s| - from];
    assert |r| == |t|;
    forall k | 0 <= k < |r| ensures r[k] == t[k] {
      assert r[k] == s[from..to][to - from - 1 - k] == s[to - 1 - k];
      assert t[k] == Reverse(s)[|s| - to + k];
    }
  }

  lemma ReverseOfLast<T>(s: seq<T>, n: nat)
    ensures Reverse(Last(s, n)) == Reverse(s)[..Min(n, |s|)]
  {
  }

  /** The database branch: newest first, skip, then take. */
  function SkipTake<T>(newestFirst: seq<T>, skip: nat, take: nat): seq<T> {
    newestFirst[Min(skip, |newestFirst|)..Min(skip + take, |newestFirst|)]
  }

  /** The slice arithmetic of the in-memory branch computes the same page as the database branch. */
  lemma PageIsSkipTake(buffer: seq<AuditEntry>, page: nat, limit: nat)
    requires page >= 1 && limit >= 1
    ensures 0 <= (page - 1) * limit
    ensures Page(buffer, page, limit) == SkipTake(Reverse(buffer), (page - 1) * limit, limit)
  {
    PageProduct(page, limit);
    var total := |buffer|;
    var from := Max(0, total - page * limit);
    var to := Max(0, total - (page - 1) * limit);
    ReverseOfSlice(buffer, from, to);
    assert from == to ==> Reverse(buffer[from..to]) == [];
  }

  lemma PageProduct(page: nat, limit: nat)
    requires page >= 1
    ensures page * limit == (page - 1) * limit + limit && (page - 1) * limit >= 0
  {
  }

  /** Pages 1 to m, one after the other. */
  function Pages(buffer: seq<AuditEntry>, m: nat, limit: nat): seq<AuditEntry> {
    if m == 0 then [] else Pages(buffer, m - 1, limit) + Page(buffer, m, limit)
  }

  lemma PageAfter(buffer: seq<AuditEntry>, m: nat, limit: nat)
    requires m >= 1 && limit >= 1
    ensures Page(buffer, m, limit) == SkipTake(Reverse(buffer), Multiple(m - 1, limit), limit)
  {
    MultipleIsProduct(m - 1, limit);
    PageIsSkipTake(buffer, m, limit);
  }

  lemma {:induction false} PagesCover(buffer: seq<AuditEntry>, m: nat, limit: nat)
    requires limit >= 1
    ensures Pages(buffer, m, limit) == Reverse(Last(buffer, Multiple(m, limit)))
  {
    if m == 0 {
      ReverseOfLast(buffer, 0);
    } else {
      PagesCover(buffer, m - 1, limit);
      PageAfter(buffer, m, limit);
      JoinPage(buffer, Multiple(m - 1, limit), limit, Pages(buffer, m - 1, limit), Page(buffer, m, limit));
    }
  }

  lemma JoinPage(buffer: seq<AuditEntry>, k: nat, limit: nat, front: seq<AuditEntry>, page: seq<AuditEntry>)
    requires front == Reverse(Last(buffer, k)) && page == SkipTake(Reverse(buffer), k, limit)
    ensures front + page == Reverse(Last(buffer, k + limit))
  {
    OnePageMore(buffer, k, limit);
  }

  /** Reading the pages in order shows the last m * limit entries, newest first, each exactly once. */
  lemma PagesCoverTheEnd(buffer: seq<AuditEntry>, m: nat, limit: nat)
    requires limit >= 1
    ensures m * limit >= 0
    ensures Pages(buffer, m, limit) == Reverse(Last(buffer, m * limit))
  {
    MultipleIsProduct(m, limit);
    PagesCover(buffer, m, limit);
  }

  lemma OnePageMore(buffer: seq<AuditEntry>, k: nat, limit: nat)
    ensures Reverse(Last(buffer, k)) + SkipTake(Reverse(buffer), k, limit) == Reverse(Last(buffer, k + limit))
  {
    ReverseOfLast(buffer, k);
    ReverseOfLast(buffer, k + limit);
    SkipTakeExtends(Reverse(buffer), k, limit);
  }

  lemma SkipTakeExtends<T>(newestFirst: seq<T>, skip: nat, take: nat)
    ensures newestFirst[..Min(skip, |newestFirst|)] + SkipTake(newestFirst, skip, take)
        == newestFirst[..Min(skip + take, |newestFirst|)]
  {
  }

  // ----- The history query --------------------------------------------------------------------------

  /** `slice(-n)` yields the last n entries for every positive n, but everything for n = 0. */
  lemma SliceLastMeaning<T>(s: seq<T>, n: nat)
    ensures SliceLast(s, n) == if n == 0 then s else Last(s, n)
  {
  }

  lemma {:induction false} FilterMeaning<T>(p: T -> bool, s: seq<T>)
    ensures forall x :: x in Filter(p, s) <==> x in s && p(x)
  {
    if s != [] {
      FilterMeaning(p, s[..|s| - 1]);
      assert s == s[..|s| - 1] + [s[|s| - 1]];
    }
  }
}
