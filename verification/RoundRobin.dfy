/** The round-robin ring of a shared listener (relay/remoteserver.go:160-193, 219-246, 278-288).
    Control connections are natural numbers here. */
module RoundRobin {
  import opened Basics

  datatype Ring = Ring(conns: map<nat, seq<byte>>, order: seq<nat>, next: nat)

  const EMPTY := Ring(map[], [], 0)

  function Attach(r: Ring, cc: nat, target: seq<byte>): Ring {
    r.(conns := r.conns[cc := target], order := if cc in r.conns then r.order else r.order + [cc])
  }

  /** The first position of `cc`, or the length when it is absent. */
  function IndexOf(order: seq<nat>, cc: nat): (i: nat)
    ensures i <= |order| && (i < |order| ==> order[i] == cc) && forall j :: 0 <= j < i ==> order[j] != cc
  {
    if order == [] || order[0] == cc then 0 else 1 + IndexOf(order[1..], cc)
  }

  function Detach(r: Ring, cc: nat): Ring {
    if cc !in r.conns then r
    else
      var i := IndexOf(r.order, cc);
      var conns := r.conns - {cc};
      if i == |r.order| then r.(conns := conns)
      else
        var order := r.order[..i] + r.order[i + 1..];
        var next := if r.next > i then r.next - 1 else r.next;
        Ring(conns, order, if next >= |order| then 0 else next)
  }

  function Wrap(i: nat, n: nat): (w: nat)
    requires n > 0
    ensures w < n
  {
    i % n
  }

  /** The connection that the next public connection goes to, and the ring after it. */
  function Dispatch(r: Ring): (Option<nat>, Ring) {
    if r.order == [] then (None, r)
    else (Some(r.order[Wrap(r.next, |r.order|)]), r.(next := Wrap(r.next + 1, |r.order|)))
  }

  lemma WrapIs(i: nat, n: nat)
    requires 0 < n && i <= n
    ensures Wrap(i, n) == if i < n then i else 0
  {
  }

  ghost predicate Distinct(s: seq<nat>) {
    forall i, j :: 0 <= i < j < |s| ==> s[i] != s[j]
  }

  ghost predicate RingInv(r: Ring) {
    && Distinct(r.order)
    && (forall cc :: cc in r.order <==> cc in r.conns)
    && (r.next < |r.order| || (r.order == [] && r.next == 0))
  }

  /** The order in which connections will be served, starting with the next one. */
  function Reading(r: Ring): seq<nat>
    requires RingInv(r)
  {
    r.order[r.next..] + r.order[..r.next]
  }

  function Without(s: seq<nat>, cc: nat): seq<nat> {
    if s == [] then [] else (if s[0] == cc then [] else [s[0]]) + Without(s[1..], cc)
  }

  lemma {:induction false} WithoutConcat(a: seq<nat>, b: seq<nat>, cc: nat)
    ensures Without(a + b, cc) == Without(a, cc) + Without(b, cc)
  {
    if a == [] {
      assert a + b == b;
    } else {
      assert (a + b)[1..] == a[1..] + b;
      WithoutConcat(a[1..], b, cc);
    }
  }

  lemma {:induction false} WithoutAbsent(s: seq<nat>, cc: nat)
    requires cc !in s
    ensures Without(s, cc) == s
  {
    if s != [] {
      WithoutAbsent(s[1..], cc);
      assert s == [s[0]] + s[1..];
    }
  }

  lemma AttachKeepsInv(r: Ring, cc: nat, target: seq<byte>)
    requires RingInv(r)
    ensures RingInv(Attach(r, cc, target))
  {
  }

  lemma RemovalKeepsRest(o: seq<nat>, i: nat)
    requires Distinct(o) && i < |o|
    ensures var rest := o[..i] + o[i + 1..]; Distinct(rest) && forall c :: c in rest <==> c in o && c != o[i]
  {
    var rest := o[..i] + o[i + 1..];
    assert forall k :: 0 <= k < |rest| ==> rest[k] == o[if k < i then k else k + 1];
    forall c | c in o && c != o[i] ensures c in rest {
      var j :| 0 <= j < |o| && o[j] == c;
      assert rest[if j < i then j else j - 1] == c;
    }
  }

  lemma DetachKeepsInv(r: Ring, cc: nat)
    requires RingInv(r)
    ensures RingInv(Detach(r, cc))
  {
    if cc in r.conns {
      DetachMeans(r, cc);
      RemovalKeepsRest(r.order, IndexOf(r.order, cc));
      DetachConns(r, cc);
      hide Detach, IndexOf, Distinct;
    }
  }

  lemma DetachConns(r: Ring, cc: nat)
    ensures Detach(r, cc).conns == r.conns - {cc}
  {
  }

  lemma DistinctSlices(o: seq<nat>, n: nat)
    requires Distinct(o) && n <= |o|
    ensures Distinct(o[..n]) && Distinct(o[n..])
  {
  }

  lemma RemoveBefore(o: seq<nat>, i: nat, n: nat)
    requires i < n <= |o|
    ensures var rest := o[..i] + o[i + 1..];
            rest[n - 1..] + rest[..n - 1] == o[n..] + (o[..n][..i] + o[..n][i + 1..])
  {
    var rest := o[..i] + o[i + 1..];
    assert rest[n - 1..] == o[n..];
    assert rest[..n - 1] == o[..n][..i] + o[..n][i + 1..];
  }

  lemma RemoveBehind(o: seq<nat>, i: nat, n: nat, next: nat)
    requires n <= i < |o| && next == if n < |o| - 1 then n else 0
    ensures var rest := o[..i] + o[i + 1..];
            rest[next..] + rest[..next] == (o[n..][..i - n] + o[n..][i - n + 1..]) + o[..n]
  {
    var rest := o[..i] + o[i + 1..];
    assert rest[..n] == o[..n];
    assert rest[n..] == o[n..][..i - n] + o[n..][i - n + 1..];
    if n == |rest| {
      assert rest[0..] + rest[..0] == rest[n..] + rest[..n];
    }
  }

  /** The order read from `n` on, with the first occurrence of `cc` removed. */
  lemma ReadWithout(o: seq<nat>, i: nat, n: nat, next: nat, cc: nat)
    requires Distinct(o) && i < |o| && n <= |o| && o[i] == cc
    requires next == if n > i then n - 1 else if n < |o| - 1 then n else 0
    ensures var rest := o[..i] + o[i + 1..];
            next <= |rest| && rest[next..] + rest[..next] == Without(o[n..], cc) + Without(o[..n], cc)
  {
    DistinctSlices(o, n);
    OnlyOnce(o, i, n);
    hide Distinct, Without;
    if i < n {
      WithoutAbsent(o[n..], cc);
      SplitAt(o[..n], i, cc);
      RemoveBefore(o, i, n);
    } else {
      WithoutAbsent(o[..n], cc);
      SplitAt(o[n..], i - n, cc);
      RemoveBehind(o, i, n, next);
    }
  }

  lemma OnlyOnce(o: seq<nat>, i: nat, n: nat)
    requires Distinct(o) && i < |o| && n <= |o|
    ensures i < n ==> o[i] !in o[n..] && o[..n][i] == o[i]
    ensures n <= i ==> o[i] !in o[..n] && o[n..][i - n] == o[i]
  {
  }

  /** Removing a connection keeps the others' turns: the new reading is the old one without it. */
  lemma DetachKeepsTurns(r: Ring, cc: nat)
    requires RingInv(r)
    ensures RingInv(Detach(r, cc)) && Reading(Detach(r, cc)) == Without(Reading(r), cc)
  {
    hide IndexOf, Without, Distinct;
    var n, o := r.next, r.order;
    DetachKeepsInv(r, cc);
    WithoutConcat(o[n..], o[..n], cc);
    if cc !in r.conns {
      WithoutAbsent(o[n..], cc);
      WithoutAbsent(o[..n], cc);
    } else {
      hide Detach;
      DetachMeans(r, cc);
      ReadWithout(o, IndexOf(o, cc), n, Detach(r, cc).next, cc);
    }
  }

  lemma DetachMeans(r: Ring, cc: nat)
    requires RingInv(r) && cc in r.conns
    ensures var i, r' := IndexOf(r.order, cc), Detach(r, cc);
            && i < |r.order| && r.order[i] == cc && r'.order == r.order[..i] + r.order[i + 1..]
            && r'.next == (if r.next > i then r.next - 1 else if r.next < |r.order| - 1 then r.next else 0)
            && cc !in r.order[..i] && cc !in r.order[i + 1..]
  {
    assert cc in r.order;
    IndexIn(r.order, cc);
  }

  lemma SplitAt(s: seq<nat>, i: nat, cc: nat)
    requires Distinct(s) && i < |s| && s[i] == cc
    ensures Without(s, cc) == s[..i] + s[i + 1..]
  {
    WithoutOnly(cc);
    hide Without;
    assert s == s[..i] + ([cc] + s[i + 1..]);
    WithoutConcat(s[..i], [cc] + s[i + 1..], cc);
    WithoutConcat([cc], s[i + 1..], cc);
    WithoutAbsent(s[..i], cc);
    WithoutAbsent(s[i + 1..], cc);
  }

  lemma WithoutOnly(cc: nat)
    ensures Without([cc], cc) == []
  {
  }

  /** Serving the next connection puts it at the end of the reading. */
  lemma DispatchRotates(r: Ring)
    requires RingInv(r) && r.order != []
    ensures var (cc, r') := Dispatch(r);
            && RingInv(r') && r'.order == r.order && cc == Some(Reading(r)[0])
            && Reading(r') == Reading(r)[1..] + [Reading(r)[0]]
  {
    var n, o := r.next, r.order;
    WrapIs(n, |o|);
    WrapIs(n + 1, |o|);
    hide Wrap;
    if n + 1 < |o| {
      assert o[..n + 1] == o[..n] + [o[n]];
      assert Reading(r)[1..] == o[n + 1..] + o[..n];
    } else {
      assert o == o[..n] + [o[n]];
      assert Reading(r)[1..] == o[..n];
    }
  }

  /** A new connection gets its turn after those from `next` to the end, before the others. */
  lemma AttachInserts(r: Ring, cc: nat, target: seq<byte>)
    requires RingInv(r) && cc !in r.conns
    ensures RingInv(Attach(r, cc, target))
    ensures Reading(Attach(r, cc, target)) == r.order[r.next..] + [cc] + r.order[..r.next]
  {
    assert (r.order + [cc])[r.next..] == r.order[r.next..] + [cc];
    assert (r.order + [cc])[..r.next] == r.order[..r.next];
  }

  /** The connections chosen by `k` dispatches in a row, and the ring after them. */
  function Served(r: Ring, k: nat): seq<nat>
    requires r.order != []
    decreases k
  {
    if k == 0 then [] else [Dispatch(r).0.value] + Served(Dispatch(r).1, k - 1)
  }

  function After(r: Ring, k: nat): (r': Ring)
    requires r.order != []
    ensures r'.order == r.order
    decreases k
  {
    if k == 0 then r else After(Dispatch(r).1, k - 1)
  }

  /** The next `k` of a reading, going round at most once. */
  lemma {:induction false} ServedIsReading(r: Ring, k: nat)
    requires RingInv(r) && r.order != [] && k <= |r.order|
    ensures Served(r, k) == Reading(r)[..k]
    ensures RingInv(After(r, k)) && Reading(After(r, k)) == Reading(r)[k..] + Reading(r)[..k]
    decreases k
  {
    if k == 0 {
      assert Reading(r)[0..] + Reading(r)[..0] == Reading(r);
    } else {
      var r1, rd := Dispatch(r).1, Reading(r);
      DispatchRotates(r);
      ReadingLength(r);
      ReadingLength(r1);
      hide Reading, Dispatch, RingInv;
      ServedIsReading(r1, k - 1);
      RotateBy(rd, k);
      assert Served(r, k) == [rd[0]] + Served(r1, k - 1);
      assert After(r, k) == After(r1, k - 1);
    }
  }

  lemma ReadingLength(r: Ring)
    requires RingInv(r)
    ensures |Reading(r)| == |r.order|
  {
  }

  lemma RotateBy(rd: seq<nat>, k: nat)
    requires 0 < k <= |rd|
    ensures var rd1 := rd[1..] + [rd[0]];
            [rd[0]] + rd1[..k - 1] == rd[..k] && rd1[k - 1..] + rd1[..k - 1] == rd[k..] + rd[..k]
  {
    var rd1 := rd[1..] + [rd[0]];
    assert rd1[..k - 1] == rd[1..k];
    assert rd1[k - 1..] == rd[k..] + [rd[0]];
    assert rd[..k] == [rd[0]] + rd[1..k];
  }

  lemma {:induction false} ServedConcat(r: Ring, j: nat, k: nat)
    requires r.order != []
    ensures Served(r, j + k) == Served(r, j) + Served(After(r, j), k)
    decreases j
  {
    hide Dispatch;
    if j > 0 {
      OrderKept(r);
      ServedConcat(Dispatch(r).1, j - 1, k);
    }
  }

  lemma OrderKept(r: Ring)
    requires r.order != []
    ensures Dispatch(r).1.order == r.order && Dispatch(r).0.Some?
  {
  }

  /** After one round the ring is as it was. */
  lemma RoundReturns(r: Ring)
    requires RingInv(r) && r.order != []
    ensures Served(r, |r.order|) == Reading(r) && After(r, |r.order|) == r
  {
    var n := |r.order|;
    ServedIsReading(r, n);
    ConnsKept(r, n);
    var r' := After(r, n);
    assert Reading(r)[..n] == Reading(r);
    assert Reading(r')[0] == Reading(r)[0];
    assert r.order[r'.next] == r.order[r.next];
  }

  lemma {:induction false} ConnsKept(r: Ring, k: nat)
    requires r.order != []
    ensures After(r, k).conns == r.conns
    decreases k
  {
    if k > 0 {
      ConnsKept(Dispatch(r).1, k - 1);
    }
  }

  lemma Distribute(a: int, b: int, n: int)
    ensures (a - b) * n == a * n - b * n
  {
  }

  lemma AtLeast(a: int, n: int)
    requires a >= 1 && n >= 0
    ensures a * n >= n
  {
  }

  lemma DivStep(k: nat, n: nat)
    requires 0 < n <= k
    ensures k / n == (k - n) / n + 1 && k % n == (k - n) % n
  {
    var q, q' := k / n, (k - n) / n + 1;
    assert k == q * n + k % n && k - n == (q' - 1) * n + (k - n) % n;
    Distribute(q', 1, n);
    Distribute(q, q', n);
    Distribute(q', q, n);
    if q > q' {
      AtLeast(q - q', n);
    } else if q < q' {
      AtLeast(q' - q, n);
    }
  }

  lemma {:induction false} CountOnce(s: seq<nat>, cc: nat)
    requires Distinct(s)
    ensures Times(s, cc) == if cc in s then 1 else 0
  {
    if s != [] {
      assert s == [s[0]] + s[1..];
      CountOnce(s[1..], cc);
    }
  }

  function Times(s: seq<nat>, cc: nat): nat {
    multiset(s)[cc]
  }

  lemma TimesConcat(a: seq<nat>, b: seq<nat>, cc: nat)
    ensures Times(a + b, cc) == Times(a, cc) + Times(b, cc)
  {
  }

  /** Within a round nobody is served twice, and a whole round serves everybody once. */
  lemma RoundServesOnce(r: Ring, k: nat, cc: nat)
    requires RingInv(r) && cc in r.conns && r.order != [] && k <= |r.order|
    ensures Times(Served(r, k), cc) <= 1 && (k == |r.order| ==> Times(Served(r, k), cc) == 1)
  {
    hide Served, After;
    ServedIsReading(r, k);
    ReadingIsDistinct(r);
    CountOnce(Reading(r)[..k], cc);
    assert k == |r.order| ==> Reading(r)[..k] == Reading(r);
  }

  /** floor(k/n) or ceil(k/n) */
  predicate IsShare(count: nat, k: nat, n: nat)
    requires n > 0
  {
    count == k / n || (k % n != 0 && count == k / n + 1)
  }

  lemma ShareOfPart(count: nat, k: nat, n: nat)
    requires k < n && count <= 1 && (k == 0 ==> count == 0)
    ensures IsShare(count, k, n)
  {
    assert k / n == 0 && k % n == k;
  }

  lemma ShareOfMore(count: nat, k: nat, n: nat)
    requires 0 < n <= k && IsShare(count, k - n, n)
    ensures IsShare(count + 1, k, n)
  {
    DivStep(k, n);
  }

  lemma FairPart(r: Ring, k: nat, cc: nat)
    requires RingInv(r) && cc in r.conns && r.order != [] && k < |r.order|
    ensures IsShare(Times(Served(r, k), cc), k, |r.order|)
  {
    hide Reading, After, Times, RingInv, IsShare;
    RoundServesOnce(r, k, cc);
    NoneServed(r, cc);
    ShareOfPart(Times(Served(r, k), cc), k, |r.order|);
  }

  lemma FairMore(r: Ring, k: nat, cc: nat)
    requires RingInv(r) && cc in r.conns && r.order != [] && |r.order| <= k
    requires IsShare(Times(Served(r, k - |r.order|), cc), k - |r.order|, |r.order|)
    ensures IsShare(Times(Served(r, k), cc), k, |r.order|)
  {
    hide Served, Reading, After, Times, RingInv, IsShare;
    var n := |r.order|;
    RoundServesOnce(r, n, cc);
    ServedConcat(r, n, k - n);
    RoundReturns(r);
    TimesConcat(Served(r, n), Served(r, k - n), cc);
    ShareOfMore(Times(Served(r, k - n), cc), k, n);
  }

  /** Fair dispatch: over any fixed set of n connections, k public connections in a row give
      each of them floor(k/n) or ceil(k/n). */
  lemma {:induction false} DispatchIsFair(r: Ring, k: nat, cc: nat)
    requires RingInv(r) && cc in r.conns
    ensures r.order != [] && IsShare(Times(Served(r, k), cc), k, |r.order|)
    decreases k
  {
    assert cc in r.order;
    hide Served, Times, RingInv, IsShare;
    if k < |r.order| {
      FairPart(r, k, cc);
    } else {
      DispatchIsFair(r, k - |r.order|, cc);
      FairMore(r, k, cc);
    }
  }

  lemma NoneServed(r: Ring, cc: nat)
    requires r.order != []
    ensures Times(Served(r, 0), cc) == 0
  {
  }

  lemma ReadingIsDistinct(r: Ring)
    requires RingInv(r)
    ensures Distinct(Reading(r)) && |Reading(r)| == |r.order|
    ensures forall cc :: cc in Reading(r) <==> cc in r.conns
  {
    assert r.order == r.order[..r.next] + r.order[r.next..];
  }

  datatype RingStep = Join(cc: nat, target: seq<byte>) | Leave(cc: nat) | Serve

  function RingNext(r: Ring, step: RingStep): Ring {
    match step
    case Join(cc, target) => Attach(r, cc, target)
    case Leave(cc) => Detach(r, cc)
    case Serve => Dispatch(r).1
  }

  /** How many turns come before the turn of `cc`. */
  function Turns(r: Ring, cc: nat): nat
    requires RingInv(r)
  {
    IndexOf(Reading(r), cc)
  }

  lemma RingStepKeepsInv(r: Ring, step: RingStep)
    requires RingInv(r)
    ensures RingInv(RingNext(r, step))
  {
    match step
    case Join(cc, t) => AttachKeepsInv(r, cc, t);
    case Leave(cc) => DetachKeepsInv(r, cc);
    case Serve => if r.order != [] { DispatchRotates(r); }
  }

  /** After any run of attach, detach and dispatch the ring is sound. */
  lemma {:induction false} RingRunKeepsInv(r: Ring, steps: seq<RingStep>)
    requires RingInv(r)
    ensures RingInv(RingAfter(r, steps))
    decreases |steps|
  {
    if steps != [] {
      RingStepKeepsInv(r, steps[0]);
      RingRunKeepsInv(RingNext(r, steps[0]), steps[1..]);
    }
  }

  function RingAfter(r: Ring, steps: seq<RingStep>): Ring
    decreases |steps|
  {
    if steps == [] then r else RingAfter(RingNext(r, steps[0]), steps[1..])
  }

  predicate Serves(r: Ring, step: RingStep, cc: nat) {
    step == Serve && Dispatch(r).0 == Some(cc)
  }

  /** `cc` stays attached and is not served in the whole run. */
  predicate Starved(r: Ring, steps: seq<RingStep>, cc: nat)
    decreases |steps|
  {
    cc in r.conns && (steps == [] || (!Serves(r, steps[0], cc) && Starved(RingNext(r, steps[0]), steps[1..], cc)))
  }

  function Joins(steps: seq<RingStep>): nat {
    if steps == [] then 0 else (if steps[0].Join? then 1 else 0) + Joins(steps[1..])
  }

  function Dispatches(steps: seq<RingStep>): nat {
    if steps == [] then 0 else (if steps[0] == Serve then 1 else 0) + Dispatches(steps[1..])
  }

  lemma {:induction false} IndexIn(s: seq<nat>, cc: nat)
    requires cc in s
    ensures IndexOf(s, cc) < |s|
  {
    if s[0] != cc {
      IndexIn(s[1..], cc);
    }
  }

  lemma IndexIsUnique(s: seq<nat>, i: nat, cc: nat)
    requires Distinct(s) && i < |s| && s[i] == cc
    ensures IndexOf(s, cc) == i
  {
    IndexIn(s, cc);
  }

  lemma TurnAfterServe(r: Ring, cc: nat)
    requires RingInv(r) && cc in r.conns && Dispatch(r).0 != Some(cc)
    ensures RingInv(Dispatch(r).1) && Turns(r, cc) > 0 && Turns(Dispatch(r).1, cc) == Turns(r, cc) - 1
  {
    hide Reading, IndexOf, Wrap;
    assert cc in r.order;
    DispatchRotates(r);
    ReadingIsDistinct(r);
    ReadingIsDistinct(Dispatch(r).1);
    IndexIn(Reading(r), cc);
    IndexIsUnique(Reading(Dispatch(r).1), IndexOf(Reading(r), cc) - 1, cc);
  }

  /** One more in the middle moves the others by at most one place. */
  lemma IndexAfterInsert(a: seq<nat>, b: seq<nat>, c: nat, cc: nat)
    requires Distinct(a + [c] + b) && Distinct(a + b) && cc in a + b
    ensures IndexOf(a + [c] + b, cc) <= IndexOf(a + b, cc) + 1
  {
    hide Distinct, IndexOf;
    IndexIn(a + b, cc);
    IndexMeans(a + b, cc);
    var i := IndexOf(a + b, cc);
    IndexIsUnique(a + [c] + b, if i < |a| then i else i + 1, cc);
  }

  lemma TurnAfterJoin(r: Ring, c: nat, t: seq<byte>, cc: nat)
    requires RingInv(r) && cc in r.conns
    ensures RingInv(Attach(r, c, t)) && Turns(Attach(r, c, t), cc) <= Turns(r, cc) + 1
  {
    AttachKeepsInv(r, c, t);
    if c in r.conns {
      assert Reading(Attach(r, c, t)) == Reading(r);
      hide Reading, IndexOf;
    } else {
      AttachInserts(r, c, t);
      ReadingIsDistinct(r);
      ReadingIsDistinct(Attach(r, c, t));
      ReadingMeans(r);
      hide Reading, IndexOf, Attach, RingInv;
      IndexAfterInsert(r.order[r.next..], r.order[..r.next], c, cc);
    }
  }

  lemma ReadingMeans(r: Ring)
    requires RingInv(r)
    ensures Reading(r) == r.order[r.next..] + r.order[..r.next]
  {
  }

  lemma TurnAfterLeave(r: Ring, c: nat, cc: nat)
    requires RingInv(r) && cc in r.conns && cc != c
    ensures RingInv(Detach(r, c)) && Turns(Detach(r, c), cc) <= Turns(r, cc)
  {
    hide Reading, IndexOf, Detach, Without;
    DetachKeepsTurns(r, c);
    ReadingIsDistinct(r);
    ReadingIsDistinct(Detach(r, c));
    var rd := Reading(r);
    if c in r.conns {
      IndexIn(rd, cc);
      IndexIn(rd, c);
      var i, j := IndexOf(rd, cc), IndexOf(rd, c);
      IndexMeans(rd, cc);
      IndexMeans(rd, c);
      SplitAt(rd, j, c);
      IndexIsUnique(Reading(Detach(r, c)), if i < j then i else i - 1, cc);
    } else {
      WithoutAbsent(rd, c);
    }
  }

  lemma IndexMeans(s: seq<nat>, cc: nat)
    requires IndexOf(s, cc) < |s|
    ensures s[IndexOf(s, cc)] == cc
  {
  }

  /** One step: a dispatch brings the turn nearer by one, an attach delays it by at most one,
      a detach never delays it. */
  lemma TurnMoves(r: Ring, step: RingStep, cc: nat)
    requires RingInv(r) && cc in r.conns && cc in RingNext(r, step).conns && !Serves(r, step, cc)
    ensures RingInv(RingNext(r, step))
    ensures step == Serve ==> Turns(r, cc) > 0 && Turns(RingNext(r, step), cc) == Turns(r, cc) - 1
    ensures step != Serve ==> Turns(RingNext(r, step), cc) <= Turns(r, cc) + if step.Join? then 1 else 0
  {
    match step
    case Serve => TurnAfterServe(r, cc);
    case Join(c, t) => TurnAfterJoin(r, c, t, cc);
    case Leave(c) =>
      if c != cc {
        TurnAfterLeave(r, c, cc);
      }
  }

  /** Bounded waiting: while a connection stays attached and unserved, there have been no more
      dispatches than its turns to wait at the start plus the later attaches, whatever detaches
      occurred. */
  lemma {:induction false} WaitIsBounded(r: Ring, steps: seq<RingStep>, cc: nat)
    requires RingInv(r) && Starved(r, steps, cc)
    ensures Dispatches(steps) <= Turns(r, cc) + Joins(steps)
    decreases |steps|
  {
    if steps != [] {
      TurnMoves(r, steps[0], cc);
      WaitIsBounded(RingNext(r, steps[0]), steps[1..], cc);
    }
  }

  /** The target that a history has registered for `cc`: that of its last Join since its last
      Leave. */
  function Registered(steps: seq<RingStep>, cc: nat): Option<seq<byte>>
    decreases |steps|
  {
    if steps == [] then None
    else
      var last := steps[|steps| - 1];
      if last == Leave(cc) then None
      else if last.Join? && last.cc == cc then Some(last.target)
      else Registered(steps[..|steps| - 1], cc)
  }

  lemma {:induction false} RingAfterOneMore(r: Ring, steps: seq<RingStep>, last: RingStep)
    ensures RingAfter(r, steps + [last]) == RingNext(RingAfter(r, steps), last)
    decreases |steps|
  {
    hide RingNext;
    if steps == [] {
      assert steps + [last] == [last] && [last][1..] == [];
    } else {
      assert (steps + [last])[1..] == steps[1..] + [last];
      RingAfterOneMore(RingNext(r, steps[0]), steps[1..], last);
    }
  }

  lemma TargetAfterStep(r: Ring, step: RingStep, cc: nat)
    ensures var conns := RingNext(r, step).conns;
            if step.Join? && step.cc == cc then cc in conns && conns[cc] == step.target
            else if step == Leave(cc) then cc !in conns
            else (cc in conns <==> cc in r.conns) && (cc in conns ==> conns[cc] == r.conns[cc])
  {
    hide IndexOf;
  }

  /** After any run of attach, detach and dispatch, a connection is attached exactly if it has
      joined since it last left, and its target is that of its last join. */
  lemma {:induction false} TargetIsOfLastJoin(steps: seq<RingStep>, cc: nat)
    ensures var conns := RingAfter(EMPTY, steps).conns;
            && (cc in conns <==> Registered(steps, cc).Some?)
            && (cc in conns ==> conns[cc] == Registered(steps, cc).value)
    decreases |steps|
  {
    hide RingNext;
    if steps != [] {
      var before, last := steps[..|steps| - 1], steps[|steps| - 1];
      TargetIsOfLastJoin(before, cc);
      assert steps == before + [last];
      RingAfterOneMore(EMPTY, before, last);
      TargetAfterStep(RingAfter(EMPTY, before), last, cc);
    }
  }

  /** So what dispatch chooses always has a target, and it is that one. */
  lemma DispatchHasTarget(steps: seq<RingStep>, cc: nat)
    requires Dispatch(RingAfter(EMPTY, steps)).0 == Some(cc)
    ensures Registered(steps, cc).Some? && cc in RingAfter(EMPTY, steps).conns
    ensures RingAfter(EMPTY, steps).conns[cc] == Registered(steps, cc).value
  {
    var r := RingAfter(EMPTY, steps);
    RingRunKeepsInv(EMPTY, steps);
    hide RingAfter, Registered;
    assert cc in r.order;
    TargetIsOfLastJoin(steps, cc);
  }
}
