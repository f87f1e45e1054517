/** The message list of the chat client: at-least-once delivery shown as one bubble per message. */
module Bubbles {
  import opened Text

  datatype Message = Message(id: string, role: string, content: string)

  predicate IsChatMessage(m: Message) { m.id != "" && m.content != "" }

  predicate IsLocal(m: Message) { "local-" <= m.id }

  function Fingerprint(m: Message): string {
    (if m.role == "assistant" || m.role == "human_agent" then "agent" else m.role) + ":" + m.content
  }

  /** An optimistic item that `m` stands for. */
  predicate Replaces(m: Message, item: Message) {
    IsLocal(item) && item.role == m.role && item.content == m.content
  }

  function WithoutLocal(items: seq<Message>, m: Message): seq<Message> {
    if items == [] then []
    else (if Replaces(m, items[0]) then [] else [items[0]]) + WithoutLocal(items[1..], m)
  }

  predicate HasId(items: seq<Message>, id: string) { exists x :: x in items && x.id == id }

  predicate HasPrint(items: seq<Message>, mark: string) { exists x :: x in items && Fingerprint(x) == mark }

  predicate Shows(items: seq<Message>, m: Message) { HasId(items, m.id) || HasPrint(items, Fingerprint(m)) }

  function Upsert(items: seq<Message>, m: Message): seq<Message> {
    if !IsChatMessage(m) then items
    else
      var kept := WithoutLocal(items, m);
      if Shows(kept, m) then kept else kept + [m]
  }

  function UpsertAll(items: seq<Message>, ms: seq<Message>): seq<Message>
    decreases |ms|
  {
    if ms == [] then items else UpsertAll(Upsert(items, ms[0]), ms[1..])
  }

  /** `mergePreferLive`: server history added to the live list. */
  function Merge(live: seq<Message>, incoming: seq<Message>): seq<Message> {
    live + Extras(live, incoming)
  }

  function Extras(live: seq<Message>, incoming: seq<Message>): seq<Message> {
    if incoming == [] then []
    else (if Shows(live, incoming[0]) || IsLocal(incoming[0]) then [] else [incoming[0]])
         + Extras(live, incoming[1..])
  }

  /** The hook's state: the rendered list and the cache that outlives it. */
  class ChatView {
    var messages: seq<Message>
    var cache: map<string, seq<Message>>
    var ticket: Option<string>

    /** `readCache` on mount: the cached list with unseen history added, or the history. */
    constructor (ticket: Option<string>, initial: seq<Message>, cache: map<string, seq<Message>>)
      ensures this.ticket == ticket && this.cache == cache
      ensures messages == if ticket.Some? && ticket.value in cache && cache[ticket.value] != []
                          then Merge(cache[ticket.value], initial) else initial
    {
      this.ticket, this.cache := ticket, cache;
      if ticket.Some? && ticket.value in cache && cache[ticket.value] != [] {
        messages := Merge(cache[ticket.value], initial);
      } else {
        messages := initial;
      }
    }

    method Add(m: Message)
      modifies this`messages, this`cache
      ensures messages == Upsert(old(messages), m)
      ensures IsChatMessage(m) && ticket.Some? ==> cache == old(cache)[ticket.value := messages]
      ensures !IsChatMessage(m) || ticket.None? ==> cache == old(cache)
    {
      if !IsChatMessage(m) {
        return;
      }
      var withoutLocal := WithoutLocal(messages, m);
      var next := withoutLocal;
      var seen := false;
      for i := 0 to |withoutLocal|
        invariant seen <==> Shows(withoutLocal[..i], m)
      {
        seen := seen || withoutLocal[i].id == m.id || Fingerprint(withoutLocal[i]) == Fingerprint(m);
        assert withoutLocal[..i + 1] == withoutLocal[..i] + [withoutLocal[i]];
      }
      assert withoutLocal[..|withoutLocal|] == withoutLocal;
      if !seen {
        next := next + [m];
      }
      if ticket.Some? {
        cache := cache[ticket.value := next];
      }
      messages := next;
    }
  }

  // ---------- what the list keeps ----------

  /** No id and no fingerprint is shown twice. */
  predicate Distinct(items: seq<Message>) {
    forall i, j :: 0 <= i < j < |items| ==>
      items[i].id != items[j].id && Fingerprint(items[i]) != Fingerprint(items[j])
  }

  lemma {:induction false} WithoutLocalMembers(items: seq<Message>, m: Message, x: Message)
    ensures x in WithoutLocal(items, m) <==> x in items && !Replaces(m, x)
  {
    hide Replaces;
    if items != [] { WithoutLocalMembers(items[1..], m, x); }
  }

  lemma {:induction false} WithoutLocalDistinct(items: seq<Message>, m: Message)
    requires Distinct(items)
    ensures Distinct(WithoutLocal(items, m))
  {
    if items != [] {
      var rest := WithoutLocal(items[1..], m);
      TailDistinct(items);
      WithoutLocalDistinct(items[1..], m);
      forall j | 0 <= j < |rest|
        ensures items[0].id != rest[j].id && Fingerprint(items[0]) != Fingerprint(rest[j])
      {
        WithoutLocalMembers(items[1..], m, rest[j]);
        var k :| 0 <= k < |items[1..]| && items[1..][k] == rest[j];
        assert items[k + 1] == rest[j];
      }
      HeadDistinct(items[0], rest);
    }
  }

  lemma TailDistinct(items: seq<Message>)
    requires Distinct(items) && items != []
    ensures Distinct(items[1..])
  {
    hide Fingerprint;
  }

  lemma HeadDistinct(head: Message, rest: seq<Message>)
    requires Distinct(rest)
    requires forall j :: 0 <= j < |rest| ==> head.id != rest[j].id && Fingerprint(head) != Fingerprint(rest[j])
    ensures Distinct([head] + rest)
  {
    hide Fingerprint;
  }

  lemma LastDistinct(items: seq<Message>, m: Message)
    requires Distinct(items) && !Shows(items, m)
    ensures Distinct(items + [m])
  {
    hide Fingerprint;
    forall j | 0 <= j < |items| ensures items[j].id != m.id && Fingerprint(items[j]) != Fingerprint(m) {
      assert items[j] in items;
    }
  }

  /** The list stays free of repeats under every update. */
  lemma UpsertDistinct(items: seq<Message>, m: Message)
    requires Distinct(items)
    ensures Distinct(Upsert(items, m))
  {
    hide Distinct, Shows;
    WithoutLocalDistinct(items, m);
    if !Shows(WithoutLocal(items, m), m) { LastDistinct(WithoutLocal(items, m), m); }
  }

  lemma {:induction false} UpsertAllDistinct(items: seq<Message>, ms: seq<Message>)
    requires Distinct(items)
    ensures Distinct(UpsertAll(items, ms))
    decreases |ms|
  {
    hide Distinct, Upsert;
    if ms != [] {
      UpsertDistinct(items, ms[0]);
      UpsertAllDistinct(Upsert(items, ms[0]), ms[1..]);
    }
  }

  // ---------- redelivery ----------

  /** Ids are keys: in this pool one id always carries one text of one side. */
  predicate StableIds(pool: seq<Message>) {
    forall x, y :: x in pool && y in pool && x.id == y.id ==> Fingerprint(x) == Fingerprint(y)
  }

  predicate NoLocals(items: seq<Message>) { forall x :: x in items ==> !IsLocal(x) }

  /** Delivering `m` again changes nothing. */
  predicate Absorbed(items: seq<Message>, m: Message) {
    IsChatMessage(m) ==> Shows(items, m) && forall x :: x in items ==> !Replaces(m, x)
  }

  lemma {:induction false} NothingReplaced(items: seq<Message>, m: Message)
    requires forall x :: x in items ==> !Replaces(m, x)
    ensures WithoutLocal(items, m) == items
  {
    hide Replaces;
    if items != [] { NothingReplaced(items[1..], m); }
  }

  lemma AbsorbedIsNoop(items: seq<Message>, m: Message)
    requires Absorbed(items, m)
    ensures Upsert(items, m) == items
  {
    hide Replaces, Shows;
    if IsChatMessage(m) { NothingReplaced(items, m); }
  }

  lemma UpsertMembers(items: seq<Message>, m: Message, x: Message)
    requires x in Upsert(items, m)
    ensures x == m || (x in items && (IsChatMessage(m) ==> !Replaces(m, x)))
  {
    hide Replaces, Shows;
    WithoutLocalMembers(items, m, x);
  }

  /** Right after a delivery the message is absorbed. */
  lemma UpsertAbsorbs(items: seq<Message>, m: Message)
    requires !IsLocal(m)
    ensures Absorbed(Upsert(items, m), m)
  {
    if IsChatMessage(m) {
      var after := Upsert(items, m);
      forall x | x in after ensures !Replaces(m, x) { UpsertMembers(items, m, x); }
      assert m in WithoutLocal(items, m) + [m];
    }
  }

  /**
   * The update by `next` takes `m` off the screen: the optimistic item that stood for `m` is removed, and
   * `next` is not put in its place because its id is on screen already.
   */
  predicate Loses(items: seq<Message>, m: Message, next: Message) {
    var kept := WithoutLocal(items, next);
    IsChatMessage(m) && IsChatMessage(next) && HasId(kept, next.id) && !Shows(kept, m)
  }

  /** What `m` was shown by and `next` removed had the text and the side of both. */
  lemma LostPrint(items: seq<Message>, m: Message, next: Message)
    requires !IsLocal(m) && Shows(items, m) && !Shows(WithoutLocal(items, next), m)
    ensures Fingerprint(m) == Fingerprint(next)
    ensures exists x :: x in items && Replaces(next, x) && Fingerprint(x) == Fingerprint(m)
  {
    hide Fingerprint;
    var x :| x in items && (x.id == m.id || Fingerprint(x) == Fingerprint(m));
    WithoutLocalMembers(items, next, x);
    SamePrint(x, next) by { assert Replaces(next, x); }
  }

  lemma SamePrint(x: Message, m: Message)
    requires x.role == m.role && x.content == m.content
    ensures Fingerprint(x) == Fingerprint(m)
  {
  }

  /** A message that is absorbed stays so exactly when the update does not lose it. */
  lemma StaysAbsorbedIff(items: seq<Message>, m: Message, next: Message)
    requires !IsLocal(m) && !IsLocal(next) && Absorbed(items, m)
    ensures Absorbed(Upsert(items, next), m) <==> !Loses(items, m, next)
  {
    hide IsLocal, Fingerprint, Replaces, HasId, HasPrint;
    if IsChatMessage(m) && IsChatMessage(next) {
      var kept, after := WithoutLocal(items, next), Upsert(items, next);
      forall x | x in after ensures !Replaces(m, x) {
        UpsertMembers(items, next, x);
        NotLocalStays(m, next);
      }
      if Shows(kept, m) {
        ShownLonger(kept, next, m);
      } else {
        LostPrint(items, m, next);
        SamePrintShown(kept, m, next);
      }
    }
  }

  lemma NotLocalStays(m: Message, next: Message)
    requires !IsLocal(next)
    ensures !Replaces(m, next)
  {
  }

  lemma ShownLonger(kept: seq<Message>, next: Message, m: Message)
    requires Shows(kept, m)
    ensures Shows(kept + [next], m)
  {
    hide Fingerprint;
    var x :| x in kept && (x.id == m.id || Fingerprint(x) == Fingerprint(m));
    assert x in kept + [next];
  }

  lemma SamePrintShown(kept: seq<Message>, m: Message, next: Message)
    requires Fingerprint(m) == Fingerprint(next) && !Shows(kept, m)
    ensures Shows(kept, next) <==> HasId(kept, next.id)
    ensures Shows(kept + [next], m)
  {
    hide Fingerprint;
    assert next in kept + [next];
  }

  /** The list after the first `n` messages of a single delivery. */
  function After(items: seq<Message>, ms: seq<Message>, n: nat): seq<Message>
    requires n <= |ms|
  {
    if n == 0 then items else Upsert(After(items, ms, n - 1), ms[n - 1])
  }

  /** No step of a single delivery loses a message delivered before. */
  predicate LosesNothing(items: seq<Message>, ms: seq<Message>, n: nat)
    requires n <= |ms|
  {
    forall i, k :: 0 <= i < k < n ==> !Loses(After(items, ms, k), ms[i], ms[k])
  }

  predicate AllAbsorbed(items: seq<Message>, ms: seq<Message>, seen: nat)
    requires seen <= |ms|
  {
    forall k :: 0 <= k < seen ==> Absorbed(items, ms[k])
  }

  lemma AbsorbsNext(items: seq<Message>, ms: seq<Message>, seen: nat)
    requires seen < |ms| && NoLocals(ms) && AllAbsorbed(items, ms, seen)
    requires forall i :: 0 <= i < seen ==> !Loses(items, ms[i], ms[seen])
    ensures AllAbsorbed(Upsert(items, ms[seen]), ms, seen + 1)
  {
    hide Upsert, Absorbed, IsLocal, Loses;
    assert ms[seen] in ms;
    forall k | 0 <= k < seen + 1 ensures Absorbed(Upsert(items, ms[seen]), ms[k]) {
      assert ms[k] in ms;
      if k < seen { StaysAbsorbedIff(items, ms[k], ms[seen]); } else { UpsertAbsorbs(items, ms[seen]); }
    }
  }

  /** When nothing is lost, everything delivered so far is absorbed. */
  lemma {:induction false} AbsorbedSoFar(items: seq<Message>, ms: seq<Message>, n: nat)
    requires n <= |ms| && NoLocals(ms) && LosesNothing(items, ms, n)
    ensures AllAbsorbed(After(items, ms, n), ms, n)
  {
    hide Upsert, Absorbed, NoLocals, Loses;
    if n > 0 {
      AbsorbedSoFar(items, ms, n - 1);
      AbsorbsNext(After(items, ms, n - 1), ms, n - 1);
    }
  }

  /** Deliveries name messages by position: anything again, or the next one not yet seen. */
  predicate InOrder(total: nat, deliveries: seq<nat>, seen: nat)
    decreases |deliveries|
  {
    if deliveries == [] then seen == total
    else
      && deliveries[0] <= seen && deliveries[0] < total
      && InOrder(total, deliveries[1..], if deliveries[0] == seen then seen + 1 else seen)
  }

  predicate InRange(deliveries: seq<nat>, total: nat) {
    forall i :: 0 <= i < |deliveries| ==> deliveries[i] < total
  }

  function Deliver(items: seq<Message>, ms: seq<Message>, deliveries: seq<nat>): seq<Message>
    requires InRange(deliveries, |ms|)
    decreases |deliveries|
  {
    if deliveries == [] then items
    else Deliver(Upsert(items, ms[deliveries[0]]), ms, deliveries[1..])
  }

  lemma {:induction false} DeliverFrom(items: seq<Message>, ms: seq<Message>, deliveries: seq<nat>, seen: nat)
    requires seen <= |ms| && InOrder(|ms|, deliveries, seen) && InRange(deliveries, |ms|)
    requires NoLocals(ms) && LosesNothing(items, ms, |ms|)
    ensures Deliver(After(items, ms, seen), ms, deliveries) == After(items, ms, |ms|)
    decreases |deliveries|
  {
    hide Upsert, Absorbed, IsLocal, Loses, NoLocals;
    if deliveries != [] {
      var d := deliveries[0];
      if d < seen {
        AbsorbedSoFar(items, ms, seen);
        AbsorbedIsNoop(After(items, ms, seen), ms[d]);
        DeliverFrom(items, ms, deliveries[1..], seen);
      } else {
        DeliverFrom(items, ms, deliveries[1..], seen + 1);
      }
    }
  }

  lemma {:induction false} AfterAll(items: seq<Message>, ms: seq<Message>, n: nat)
    requires n <= |ms|
    ensures UpsertAll(items, ms) == UpsertAll(After(items, ms, n), ms[n..])
  {
    hide Upsert;
    if n == 0 {
      assert ms[0..] == ms;
    } else {
      AfterAll(items, ms, n - 1);
      assert ms[n - 1..][1..] == ms[n..] && ms[n - 1..][0] == ms[n - 1];
    }
  }

  /**
   * Exactly-once display: however often the server's messages are redelivered, over however many channels,
   * as long as first arrivals are in order and no step of the single delivery loses a message, the list is
   * the one a single delivery gives.
   */
  lemma RedeliveryInvisible(items: seq<Message>, ms: seq<Message>, deliveries: seq<nat>)
    requires InOrder(|ms|, deliveries, 0) && InRange(deliveries, |ms|)
    requires NoLocals(ms) && LosesNothing(items, ms, |ms|)
    ensures Deliver(items, ms, deliveries) == UpsertAll(items, ms)
  {
    hide Upsert, Loses, NoLocals;
    AfterAll(items, ms, |ms|);
    DeliverFrom(items, ms, deliveries, 0);
  }

  /** Two channels: `w` merges two in-order copies of the positions `i..n` and `j..n`. */
  predicate Interleaves(w: seq<nat>, i: nat, j: nat, n: nat)
    decreases |w|
  {
    if w == [] then i == n && j == n
    else
      || (i < n && w[0] == i && Interleaves(w[1..], i + 1, j, n))
      || (j < n && w[0] == j && Interleaves(w[1..], i, j + 1, n))
  }

  lemma {:induction false} InterleavingInOrder(w: seq<nat>, i: nat, j: nat, n: nat)
    requires Interleaves(w, i, j, n) && i <= n && j <= n
    ensures InOrder(n, w, if i > j then i else j) && InRange(w, n)
    decreases |w|
  {
    if w != [] {
      if i < n && w[0] == i && Interleaves(w[1..], i + 1, j, n) {
        InterleavingInOrder(w[1..], i + 1, j, n);
      } else {
        InterleavingInOrder(w[1..], i, j + 1, n);
      }
    }
  }

  /** Any interleaving of two in-order copies shows what one copy shows. */
  lemma TwoChannelsShowOne(items: seq<Message>, ms: seq<Message>, w: seq<nat>)
    requires Interleaves(w, 0, 0, |ms|) && InRange(w, |ms|)
    requires NoLocals(ms) && LosesNothing(items, ms, |ms|)
    ensures Deliver(items, ms, w) == UpsertAll(items, ms)
  {
    hide Deliver, UpsertAll, NoLocals, LosesNothing;
    InterleavingInOrder(w, 0, 0, |ms|);
    RedeliveryInvisible(items, ms, w);
  }

  // ---------- the condition is exact ----------

  /** The first step that loses a message, and the earliest message it loses. */
  lemma {:induction false} FirstLoss(items: seq<Message>, ms: seq<Message>, n: nat) returns (i: nat, k: nat)
    requires n <= |ms| && !LosesNothing(items, ms, n)
    ensures i < k < n && LosesNothing(items, ms, k) && Loses(After(items, ms, k), ms[i], ms[k])
    ensures forall h :: 0 <= h < i ==> !Loses(After(items, ms, k), ms[h], ms[k])
  {
    hide Loses, After;
    if !LosesNothing(items, ms, n - 1) {
      i, k := FirstLoss(items, ms, n - 1);
    } else {
      k := n - 1;
      i := FirstLost(After(items, ms, k), ms, k, 0);
    }
  }

  lemma {:induction false} FirstLost(items: seq<Message>, ms: seq<Message>, k: nat, from: nat) returns (i: nat)
    requires from <= k < |ms| && exists h :: from <= h < k && Loses(items, ms[h], ms[k])
    ensures from <= i < k && Loses(items, ms[i], ms[k])
    ensures forall h :: from <= h < i ==> !Loses(items, ms[h], ms[k])
    decreases k - from
  {
    hide Loses;
    if Loses(items, ms[from], ms[k]) { i := from; } else { i := FirstLost(items, ms, k, from + 1); }
  }

  /** The positions from `lo` up to `hi`. */
  function Span(lo: nat, hi: nat): (s: seq<nat>)
    requires lo <= hi
    decreases hi - lo
  {
    if lo == hi then [] else [lo] + Span(lo + 1, hi)
  }

  lemma {:induction false} SpanRange(lo: nat, hi: nat, n: nat)
    requires lo <= hi <= n
    ensures InRange(Span(lo, hi), n)
    decreases hi - lo
  {
    if lo < hi { SpanRange(lo + 1, hi, n); }
  }

  /** One channel runs from `i` to `i2`, then what follows is merged. */
  lemma {:induction false} SpanLeft(i: nat, i2: nat, j: nat, n: nat, w: seq<nat>)
    requires i <= i2 <= n && Interleaves(w, i2, j, n)
    ensures Interleaves(Span(i, i2) + w, i, j, n)
    decreases i2 - i
  {
    if i == i2 {
      assert [] + w == w;
    } else {
      SpanLeft(i + 1, i2, j, n, w);
      assert (Span(i, i2) + w)[1..] == Span(i + 1, i2) + w;
    }
  }

  lemma {:induction false} SpanRight(i: nat, j: nat, j2: nat, n: nat, w: seq<nat>)
    requires j <= j2 <= n && Interleaves(w, i, j2, n)
    ensures Interleaves(Span(j, j2) + w, i, j, n)
    decreases j2 - j
  {
    if j == j2 {
      assert [] + w == w;
    } else {
      SpanRight(i, j + 1, j2, n, w);
      assert (Span(j, j2) + w)[1..] == Span(j + 1, j2) + w;
    }
  }

  lemma {:induction false} DeliverConcat(items: seq<Message>, ms: seq<Message>, a: seq<nat>, b: seq<nat>)
    requires InRange(a, |ms|) && InRange(b, |ms|)
    ensures Deliver(items, ms, a + b) == Deliver(Deliver(items, ms, a), ms, b)
    decreases |a|
  {
    hide Upsert;
    if a == [] {
      assert a + b == b;
    } else {
      assert (a + b)[1..] == a[1..] + b;
      DeliverConcat(Upsert(items, ms[a[0]]), ms, a[1..], b);
    }
  }

  lemma {:induction false} DeliverSpan(items: seq<Message>, ms: seq<Message>, lo: nat, hi: nat)
    requires lo <= hi <= |ms|
    ensures InRange(Span(lo, hi), |ms|)
    ensures Deliver(After(items, ms, lo), ms, Span(lo, hi)) == After(items, ms, hi)
    decreases hi - lo
  {
    hide Upsert;
    SpanRange(lo, hi, |ms|);
    if lo < hi { DeliverSpan(items, ms, lo + 1, hi); }
  }

  /** Redelivering what is absorbed does nothing. */
  lemma {:induction false} AbsorbedSpan(items: seq<Message>, ms: seq<Message>, lo: nat, hi: nat)
    requires lo <= hi <= |ms| && forall k :: lo <= k < hi ==> Absorbed(items, ms[k])
    ensures InRange(Span(lo, hi), |ms|) && Deliver(items, ms, Span(lo, hi)) == items
    decreases hi - lo
  {
    hide Upsert, Absorbed;
    SpanRange(lo, hi, |ms|);
    if lo < hi {
      AbsorbedIsNoop(items, ms[lo]);
      AbsorbedSpan(items, ms, lo + 1, hi);
    }
  }

  /** Only optimistic items leave the screen. */
  lemma {:induction false} StaysOnScreen(items: seq<Message>, ms: seq<Message>, deliveries: seq<nat>, x: Message)
    requires InRange(deliveries, |ms|) && x in items && !IsLocal(x)
    ensures x in Deliver(items, ms, deliveries)
    decreases |deliveries|
  {
    hide IsLocal, Shows;
    if deliveries != [] {
      var m := ms[deliveries[0]];
      NotLocalStays(m, x);
      WithoutLocalMembers(items, m, x);
      StaysOnScreen(Upsert(items, m), ms, deliveries[1..], x);
    }
  }

  /** Nothing comes on screen that is not delivered. */
  lemma {:induction false} NeverOnScreen(items: seq<Message>, ms: seq<Message>, n: nat, hi: nat, x: Message)
    requires n <= hi <= |ms| && x !in After(items, ms, n) && x !in ms[n..hi]
    ensures x !in After(items, ms, hi)
  {
    hide Upsert;
    if n < hi {
      assert ms[n..hi] == ms[n..hi - 1] + [ms[hi - 1]];
      NeverOnScreen(items, ms, n, hi - 1, x);
      if x in After(items, ms, hi) { UpsertMembers(After(items, ms, hi - 1), ms[hi - 1], x); }
    }
  }

  predicate NoRepeats(ms: seq<Message>) { forall i, j :: 0 <= i < j < |ms| ==> ms[i] != ms[j] }

  /** What a step loses is put back on screen by its redelivery. */
  lemma LostComesBack(items: seq<Message>, m: Message, next: Message)
    requires Loses(items, m, next)
    ensures var s := Upsert(items, next); m !in s && m in Upsert(s, m)
  {
    hide Fingerprint, Replaces;
    var kept := WithoutLocal(items, next);
    assert Upsert(items, next) == kept;
    forall x | x in WithoutLocal(kept, m) ensures x in kept { WithoutLocalMembers(kept, m, x); }
  }

  /** Two channels: the first past the loss of `i` at step `k`, the second up to `i`, then both to the end. */
  function Witness(i: nat, k: nat, n: nat): seq<nat>
    requires i < k < n
  {
    Span(0, k + 1) + (Span(0, i) + ([i] + (Span(k + 1, n) + Span(i + 1, n))))
  }

  lemma WitnessInterleaves(i: nat, k: nat, n: nat)
    requires i < k < n
    ensures Interleaves(Witness(i, k, n), 0, 0, n) && InRange(Witness(i, k, n), n)
  {
    var tail := Span(k + 1, n) + Span(i + 1, n);
    SpanRight(n, i + 1, n, n, []);
    assert Span(i + 1, n) + [] == Span(i + 1, n);
    SpanLeft(k + 1, n, i + 1, n, Span(i + 1, n));
    assert ([i] + tail)[1..] == tail;
    SpanRight(k + 1, 0, i, n, [i] + tail);
    SpanLeft(0, k + 1, 0, n, Span(0, i) + ([i] + tail));
    InterleavingInOrder(Witness(i, k, n), 0, 0, n);
  }

  lemma DeliverOne(items: seq<Message>, ms: seq<Message>, i: nat)
    requires i < |ms|
    ensures Deliver(items, ms, [i]) == Upsert(items, ms[i])
  {
    hide Upsert;
    assert [i][1..] == [];
  }

  lemma WitnessDelivers(items: seq<Message>, ms: seq<Message>, i: nat, k: nat)
    requires i < k < |ms| && InRange(Witness(i, k, |ms|), |ms|)
    requires forall h :: 0 <= h < i ==> Absorbed(After(items, ms, k + 1), ms[h])
    requires ms[i] in Upsert(After(items, ms, k + 1), ms[i]) && !IsLocal(ms[i])
    ensures ms[i] in Deliver(items, ms, Witness(i, k, |ms|))
  {
    hide Upsert, Absorbed, IsLocal, After, Deliver;
    var n, s := |ms|, After(items, ms, k + 1);
    var tail := Span(k + 1, n) + Span(i + 1, n);
    SpanRange(k + 1, n, n);
    SpanRange(i + 1, n, n);
    DeliverSpan(items, ms, 0, k + 1);
    NothingDelivered(items, ms);
    AbsorbedSpan(s, ms, 0, i);
    DeliverOne(s, ms, i);
    DeliverConcat(items, ms, Span(0, k + 1), Span(0, i) + ([i] + tail));
    DeliverConcat(s, ms, Span(0, i), [i] + tail);
    DeliverConcat(s, ms, [i], tail);
    StaysOnScreen(Upsert(s, ms[i]), ms, tail, ms[i]);
  }

  lemma NothingDelivered(items: seq<Message>, ms: seq<Message>)
    ensures After(items, ms, 0) == items
  {
  }

  lemma LossShows(items: seq<Message>, ms: seq<Message>) returns (w: seq<nat>)
    requires NoLocals(ms) && NoRepeats(ms) && !LosesNothing(items, ms, |ms|)
    ensures InRange(w, |ms|) && Interleaves(w, 0, 0, |ms|) && Deliver(items, ms, w) != UpsertAll(items, ms)
  {
    hide *;
    var n := |ms|;
    var i, k := FirstLoss(items, ms, n);
    OthersAbsorbed(items, ms, i, k);
    AfterStep(items, ms, k);
    LostComesBack(After(items, ms, k), ms[i], ms[k]);
    NotRepeated(ms, i, k);
    NeverOnScreen(items, ms, k + 1, n, ms[i]);
    AfterAll(items, ms, n);
    NothingLeft(After(items, ms, n), ms[n..]);
    WitnessInterleaves(i, k, n);
    WitnessDelivers(items, ms, i, k);
    w := Witness(i, k, n);
  }

  lemma AfterStep(items: seq<Message>, ms: seq<Message>, k: nat)
    requires k < |ms|
    ensures After(items, ms, k + 1) == Upsert(After(items, ms, k), ms[k])
  {
  }

  lemma NotRepeated(ms: seq<Message>, i: nat, k: nat)
    requires i < k < |ms| && NoRepeats(ms) && NoLocals(ms)
    ensures ms[i] !in ms[k + 1..|ms|] && !IsLocal(ms[i])
  {
    hide IsLocal;
    assert ms[i] in ms;
  }

  /** Up to the first loss, and up to the earliest message it concerns, everything stays absorbed. */
  lemma OthersAbsorbed(items: seq<Message>, ms: seq<Message>, i: nat, k: nat)
    requires i < k < |ms| && NoLocals(ms) && LosesNothing(items, ms, k)
    requires forall h :: 0 <= h < i ==> !Loses(After(items, ms, k), ms[h], ms[k])
    ensures forall h :: 0 <= h < i ==> Absorbed(After(items, ms, k + 1), ms[h])
  {
    hide Upsert, Absorbed, IsLocal, Loses, After, LosesNothing;
    AbsorbedSoFar(items, ms, k);
    AfterStep(items, ms, k);
    forall h | 0 <= h < i ensures Absorbed(After(items, ms, k + 1), ms[h]) {
      assert ms[h] in ms && ms[k] in ms;
      StaysAbsorbedIff(After(items, ms, k), ms[h], ms[k]);
    }
  }

  lemma NothingLeft(items: seq<Message>, ms: seq<Message>)
    requires ms == []
    ensures UpsertAll(items, ms) == items
  {
  }

  /**
   * Redelivery is invisible exactly when no step of the single delivery loses a message: for all redeliveries
   * with first arrivals in order, and already for two channels that each deliver everything once.
   */
  lemma RedeliveryInvisibleIff(items: seq<Message>, ms: seq<Message>)
    requires NoLocals(ms) && NoRepeats(ms)
    ensures (forall w :: InRange(w, |ms|) && InOrder(|ms|, w, 0) ==> Deliver(items, ms, w) == UpsertAll(items, ms))
            <==> LosesNothing(items, ms, |ms|)
    ensures (forall w :: InRange(w, |ms|) && Interleaves(w, 0, 0, |ms|) ==> Deliver(items, ms, w) == UpsertAll(items, ms))
            <==> LosesNothing(items, ms, |ms|)
  {
    hide Deliver, UpsertAll, NoLocals, NoRepeats, LosesNothing, Interleaves, InOrder, InRange;
    if LosesNothing(items, ms, |ms|) {
      forall w | InRange(w, |ms|) && InOrder(|ms|, w, 0) ensures Deliver(items, ms, w) == UpsertAll(items, ms) {
        RedeliveryInvisible(items, ms, w);
      }
      forall w | InRange(w, |ms|) && Interleaves(w, 0, 0, |ms|) ensures Deliver(items, ms, w) == UpsertAll(items, ms) {
        TwoChannelsShowOne(items, ms, w);
      }
    } else {
      var w := LossShows(items, ms);
      InterleavingInOrder(w, 0, 0, |ms|);
    }
  }

  // ---------- screens that lose nothing ----------

  /** The three roles there are; on a customer's screen the optimistic items are the customer's. */
  predicate CustomerScreen(items: seq<Message>, ms: seq<Message>) {
    && (forall m :: m in ms ==> m.role in {"customer", "assistant", "human_agent"})
    && forall x :: x in items && IsLocal(x) ==> x.role == "customer"
  }

  lemma {:induction false} AfterMembers(items: seq<Message>, ms: seq<Message>, n: nat, x: Message)
    requires n <= |ms| && x in After(items, ms, n)
    ensures x in items || x in ms
    decreases n
  {
    hide Upsert;
    if n > 0 {
      UpsertMembers(After(items, ms, n - 1), ms[n - 1], x);
      if x != ms[n - 1] { AfterMembers(items, ms, n - 1, x); }
    }
  }

  lemma CustomerPrint(m: Message, x: Message)
    requires m.role in {"customer", "assistant", "human_agent"} && x.role == "customer" && IsLocal(x)
    requires Fingerprint(m) == Fingerprint(x)
    ensures Replaces(m, x)
  {
    hide IsLocal;
    assert Fingerprint(x)[0] == 'c' && ("agent" + ":" + m.content)[0] == 'a';
    assert m.content == Fingerprint(m)[9..] && x.content == Fingerprint(x)[9..];
  }

  lemma StepLosesNothing(items: seq<Message>, ms: seq<Message>, n: nat, m: Message, next: Message)
    requires n <= |ms| && NoLocals(ms) && m in ms && next in ms && Absorbed(After(items, ms, n), m)
    requires NoLocals(items) || StableIds(items + ms) || CustomerScreen(items, ms)
    ensures !Loses(After(items, ms, n), m, next)
  {
    hide IsLocal, Fingerprint, Replaces, After, HasPrint;
    var s := After(items, ms, n);
    var kept := WithoutLocal(s, next);
    if Loses(s, m, next) {
      LostPrint(s, m, next);
      forall x | x in s ensures x in items || x in ms { AfterMembers(items, ms, n, x); }
      var y :| y in kept && y.id == next.id;
      WithoutLocalMembers(s, next, y);
      var x :| x in s && Replaces(next, x) && Fingerprint(x) == Fingerprint(m);
      assert IsLocal(x) by { ReplacesLocal(next, x); }
      assert y in items + ms && next in items + ms;
      if CustomerScreen(items, ms) {
        CustomerPrint(m, x);
      } else if StableIds(items + ms) {
        assert Fingerprint(y) == Fingerprint(next);
        Printed(kept, y, m);
      }
      assert false;
    }
  }

  lemma ReplacesLocal(m: Message, x: Message)
    requires Replaces(m, x)
    ensures IsLocal(x)
  {
  }

  lemma Printed(items: seq<Message>, y: Message, m: Message)
    requires y in items && Fingerprint(y) == Fingerprint(m)
    ensures HasPrint(items, Fingerprint(m))
  {
  }

  /**
   * Nothing is lost when no optimistic item is on screen, when ids are keys of all that is on screen and to
   * come, or on a customer's screen.
   */
  lemma {:induction false} NothingLostWhen(items: seq<Message>, ms: seq<Message>, n: nat)
    requires n <= |ms| && NoLocals(ms)
    requires NoLocals(items) || StableIds(items + ms) || CustomerScreen(items, ms)
    ensures LosesNothing(items, ms, n)
    decreases n
  {
    hide NoLocals, StableIds, CustomerScreen, Loses, After, Absorbed;
    if n > 0 {
      NothingLostWhen(items, ms, n - 1);
      AbsorbedSoFar(items, ms, n - 1);
      forall i | 0 <= i < n - 1 ensures !Loses(After(items, ms, n - 1), ms[i], ms[n - 1]) {
        assert ms[i] in ms && ms[n - 1] in ms;
        StepLosesNothing(items, ms, n - 1, ms[i], ms[n - 1]);
      }
    }
  }

  /** On such screens redelivery is invisible, whatever the channels do. */
  lemma RedeliveryInvisibleWhen(items: seq<Message>, ms: seq<Message>, deliveries: seq<nat>)
    requires InOrder(|ms|, deliveries, 0) && InRange(deliveries, |ms|) && NoLocals(ms)
    requires NoLocals(items) || StableIds(items + ms) || CustomerScreen(items, ms)
    ensures Deliver(items, ms, deliveries) == UpsertAll(items, ms)
  {
    hide Deliver, UpsertAll, NoLocals, StableIds, CustomerScreen, LosesNothing;
    NothingLostWhen(items, ms, |ms|);
    RedeliveryInvisible(items, ms, deliveries);
  }

  // ---------- optimistic items ----------

  lemma {:induction false} WithoutLocalAppend(items: seq<Message>, x: Message, m: Message)
    ensures WithoutLocal(items + [x], m) == WithoutLocal(items, m) + if Replaces(m, x) then [] else [x]
  {
    hide Replaces;
    if items == [] {
      assert [x][1..] == [] && [] + [x] == [x];
    } else {
      assert (items + [x])[1..] == items[1..] + [x];
      WithoutLocalAppend(items[1..], x, m);
    }
  }

  lemma {:induction false} SameWithoutLocal(items: seq<Message>, a: Message, b: Message)
    requires a.role == b.role && a.content == b.content
    ensures WithoutLocal(items, a) == WithoutLocal(items, b)
  {
    hide IsLocal;
    if items != [] { SameWithoutLocal(items[1..], a, b); }
  }

  /** The server's echo takes the optimistic item's place: one bubble, carrying the server's id. */
  lemma EchoReplaces(items: seq<Message>, local: Message, echo: Message)
    requires IsChatMessage(local) && IsChatMessage(echo) && IsLocal(local) && !IsLocal(echo)
    requires local.role == echo.role && local.content == echo.content
    requires !HasId(items, local.id) && !HasId(items, echo.id)
    ensures var kept := WithoutLocal(items, echo);
            Upsert(Upsert(items, local), echo)
            == if HasPrint(kept, Fingerprint(echo)) then kept else kept + [echo]
  {
    hide IsLocal, Fingerprint, Replaces, HasId, HasPrint;
    var kept := WithoutLocal(items, echo);
    SameWithoutLocal(items, local, echo);
    SamePrint(local, echo);
    KeptIds(items, echo, local.id);
    KeptIds(items, echo, echo.id);
    KeptTwice(items, echo);
    ReplacesIts(local, echo);
    WithoutLocalAppend(kept, local, echo);
    assert kept + [] == kept;
  }

  lemma KeptIds(items: seq<Message>, m: Message, id: string)
    requires !HasId(items, id)
    ensures !HasId(WithoutLocal(items, m), id)
  {
    forall x | x in WithoutLocal(items, m) ensures x in items { WithoutLocalMembers(items, m, x); }
  }

  lemma KeptTwice(items: seq<Message>, m: Message)
    ensures WithoutLocal(WithoutLocal(items, m), m) == WithoutLocal(items, m)
  {
    hide Replaces;
    forall x | x in WithoutLocal(items, m) ensures !Replaces(m, x) { WithoutLocalMembers(items, m, x); }
    NothingReplaced(WithoutLocal(items, m), m);
  }

  lemma ReplacesIts(local: Message, echo: Message)
    requires IsLocal(local) && local.role == echo.role && local.content == echo.content
    ensures Replaces(echo, local)
  {
  }

  // ---------- history merged in ----------

  lemma {:induction false} ExtrasMembers(live: seq<Message>, incoming: seq<Message>, x: Message)
    ensures x in Extras(live, incoming) <==> x in incoming && !Shows(live, x) && !IsLocal(x)
  {
    hide Shows, IsLocal;
    if incoming != [] { ExtrasMembers(live, incoming[1..], x); }
  }

  lemma {:induction false} ExtrasDistinct(live: seq<Message>, incoming: seq<Message>)
    requires Distinct(incoming)
    ensures Distinct(Extras(live, incoming))
  {
    hide Shows, IsLocal, Fingerprint;
    if incoming != [] {
      var rest := Extras(live, incoming[1..]);
      TailDistinct(incoming);
      ExtrasDistinct(live, incoming[1..]);
      forall j | 0 <= j < |rest|
        ensures incoming[0].id != rest[j].id && Fingerprint(incoming[0]) != Fingerprint(rest[j])
      {
        ExtrasMembers(live, incoming[1..], rest[j]);
        var k :| 0 <= k < |incoming[1..]| && incoming[1..][k] == rest[j];
        assert incoming[k + 1] == rest[j];
      }
      HeadDistinct(incoming[0], rest);
    }
  }

  /** History is taken in order, each message on its own: as it comes unless it is shown live or only local. */
  lemma {:induction false} ExtrasConcat(live: seq<Message>, a: seq<Message>, b: seq<Message>)
    ensures Extras(live, a + b) == Extras(live, a) + Extras(live, b)
    ensures forall m :: Extras(live, [m]) == if Shows(live, m) || IsLocal(m) then [] else [m]
  {
    hide Shows, IsLocal;
    forall m ensures Extras(live, [m]) == if Shows(live, m) || IsLocal(m) then [] else [m] { assert [m][1..] == []; }
    if a == [] {
      assert a + b == b;
    } else {
      assert (a + b)[1..] == a[1..] + b;
      ExtrasConcat(live, a[1..], b);
    }
  }

  /** Two messages look alike exactly when they say the same for the same side; agents and the assistant are one. */
  lemma LooksAlikeIff(a: Message, b: Message)
    requires a.role in {"customer", "assistant", "human_agent"} && b.role in {"customer", "assistant", "human_agent"}
    ensures Fingerprint(a) == Fingerprint(b)
            <==> a.content == b.content && (a.role == "customer" <==> b.role == "customer")
  {
    PrintIs(a);
    PrintIs(b);
    if Fingerprint(a) == Fingerprint(b) {
      assert (a.role == "customer" <==> b.role == "customer") by { assert Fingerprint(a)[0] == Fingerprint(b)[0]; }
      var n := if a.role == "customer" then 9 else 6;
      assert a.content == Fingerprint(a)[n..] && b.content == Fingerprint(b)[n..];
    }
  }

  lemma PrintIs(m: Message)
    requires m.role in {"customer", "assistant", "human_agent"}
    ensures Fingerprint(m) == (if m.role == "customer" then "customer:" else "agent:") + m.content
    ensures Fingerprint(m)[0] == if m.role == "customer" then 'c' else 'a'
  {
  }

  /** Merging distinct history into a distinct list keeps the live part and repeats nothing. */
  lemma MergeDistinct(live: seq<Message>, incoming: seq<Message>)
    requires Distinct(live) && Distinct(incoming)
    ensures Distinct(Merge(live, incoming)) && live <= Merge(live, incoming)
  {
    hide Shows, IsLocal, Fingerprint, Extras;
    var extras := Extras(live, incoming);
    ExtrasDistinct(live, incoming);
    forall i, j | 0 <= i < |live| && 0 <= j < |extras|
      ensures live[i].id != extras[j].id && Fingerprint(live[i]) != Fingerprint(extras[j])
    {
      ExtrasMembers(live, incoming, extras[j]);
      NotShown(live, extras[j], live[i]);
    }
  }

  lemma NotShown(items: seq<Message>, m: Message, x: Message)
    requires !Shows(items, m) && x in items
    ensures x.id != m.id && Fingerprint(x) != Fingerprint(m)
  {
    hide Fingerprint;
  }

  // ---------- the closing `done` event ----------

  /** `assistantFromDone`: the bubble a `done` event stands for, with the streamed draft as a fallback. */
  function AssistantFromDone(answer: string, fallback: string, runId: Option<string>, ticketId: string): Option<Message> {
    var content := if answer != "" then answer else fallback;
    if content == "" then None
    else
      var id := if runId.Some? && runId.value != "" then runId.value
                else "done-" + ticketId + "-" + if |content| <= 24 then content else content[..24];
      Some(Message(id, "assistant", content))
  }

  /** The answer if there is one, else the draft; under the run's id, or one made of the ticket and the text. */
  lemma DoneIs(answer: string, fallback: string, runId: Option<string>, ticketId: string)
    ensures var d := AssistantFromDone(answer, fallback, runId, ticketId);
            && (d.None? <==> answer == "" && fallback == "")
            && (d.Some? ==>
                  && d.value.role == "assistant" && d.value.content == (if answer == "" then fallback else answer)
                  && (runId.Some? && runId.value != "" ==> d.value.id == runId.value)
                  && (runId.None? || runId.value == "" ==>
                        && "done-" + ticketId + "-" <= d.value.id
                        && d.value.id[|ticketId| + 6..] <= d.value.content
                        && |d.value.id| - |ticketId| - 6 == if |d.value.content| < 24 then |d.value.content| else 24))
  {
  }

  /** The persisted message and the `done` event of one answer show one bubble, whichever comes first. */
  lemma DoneShowsOnce(items: seq<Message>, m: Message, answer: string, fallback: string, runId: Option<string>,
                      ticketId: string)
    requires IsChatMessage(m) && m.role == "assistant" && !IsLocal(m) && !HasId(items, m.id)
    requires var d := AssistantFromDone(answer, fallback, runId, ticketId);
             d.Some? && d.value.content == m.content && !IsLocal(d.value) && !HasId(items, d.value.id)
    ensures var d := AssistantFromDone(answer, fallback, runId, ticketId).value;
            && Upsert(Upsert(items, m), d) == Upsert(items, m)
            && Upsert(Upsert(items, d), m) == Upsert(items, d)
  {
    var d := AssistantFromDone(answer, fallback, runId, ticketId).value;
    assert IsChatMessage(d) && d.role == "assistant";
    hide AssistantFromDone, Upsert;
    RepeatedTextHidden(items, m, d);
    RepeatedTextHidden(items, d, m);
  }

  // ---------- limits of the scheme ----------

  /** Two answers without a run whose first 24 characters agree share an id: the second is never shown. */
  lemma UnnamedAnswersCollide(items: seq<Message>, first: string, second: string, ticketId: string)
    requires |first| > 24 && |second| > 24 && first[..24] == second[..24] && first != second
    requires var a, b := Message("", "assistant", first), Message("", "assistant", second);
             !HasPrint(items, Fingerprint(a)) && !HasPrint(items, Fingerprint(b))
    ensures var d, e := AssistantFromDone(first, "", None, ticketId), AssistantFromDone(second, "", None, ticketId);
            && d.Some? && e.Some? && !HasPrint(Upsert(Upsert(items, d.value), e.value), Fingerprint(e.value))
  {
    var d, e := AssistantFromDone(first, "", None, ticketId).value, AssistantFromDone(second, "", None, ticketId).value;
    assert d.id == e.id && !IsLocal(e) by { assert d.id[0] == 'd'; }
    assert Fingerprint(d) == "agent:" + first && Fingerprint(e) == "agent:" + second;
    assert first == ("agent:" + first)[6..] && second == ("agent:" + second)[6..];
    hide AssistantFromDone, IsLocal, Fingerprint;
    DoneStaysOut(items, d, e);
  }

  lemma DoneStaysOut(items: seq<Message>, d: Message, e: Message)
    requires IsChatMessage(d) && IsChatMessage(e) && d.id == e.id && !IsLocal(e) && Fingerprint(d) != Fingerprint(e)
    requires !HasPrint(items, Fingerprint(d)) && !HasPrint(items, Fingerprint(e))
    ensures !HasPrint(Upsert(Upsert(items, d), e), Fingerprint(e))
  {
    hide IsLocal, Fingerprint, Replaces;
    var once := Upsert(items, d);
    forall x | x in once ensures x == d || x in items { UpsertMembers(items, d, x); }
    forall x | x in WithoutLocal(once, e) ensures x in once { WithoutLocalMembers(once, e, x); }
    var y :| y in once && y.id == e.id by { IdOnScreen(items, d); }
    WithoutLocalMembers(once, e, y);
    NotReplacedById(y, e);
    assert HasId(WithoutLocal(once, e), e.id);
  }

  lemma IdOnScreen(items: seq<Message>, d: Message)
    requires IsChatMessage(d) && !HasPrint(items, Fingerprint(d))
    ensures HasId(Upsert(items, d), d.id)
  {
    hide Fingerprint, Replaces;
    var kept := WithoutLocal(items, d);
    forall x | x in kept ensures x in items { WithoutLocalMembers(items, d, x); }
    assert d in kept + [d];
  }

  lemma NotReplacedById(y: Message, e: Message)
    requires y.id == e.id && !IsLocal(e)
    ensures !Replaces(e, y)
  {
  }

  /** A second message with the same text from the same side is never shown, although its id is new. */
  lemma RepeatedTextHidden(items: seq<Message>, first: Message, second: Message)
    requires IsChatMessage(first) && IsChatMessage(second) && !IsLocal(first) && !HasId(items, first.id)
    requires first.role == second.role && first.content == second.content
    ensures var once := Upsert(items, first); Upsert(once, second) == once
  {
    hide IsLocal, Fingerprint;
    var once := Upsert(items, first);
    UpsertAbsorbs(items, first);
    SamePrint(first, second);
    forall x | x in once ensures !Replaces(second, x) { UpsertMembers(items, first, x); }
    forall x | x in WithoutLocal(items, first) ensures x in items { WithoutLocalMembers(items, first, x); }
    assert HasPrint(once, Fingerprint(first));
    NothingReplaced(once, second);
  }

  /**
   * Stable ids matter once an optimistic item is on screen: here an id is reused for another text, a message is
   * lost, and a redelivery in order shows a bubble more than a single delivery.
   */
  lemma ReusedIdShowsMore(text: string, other: string)
    requires text != "" && other != "" && text != other
    ensures var items := [Message("2", "customer", other), Message("local-1", "human_agent", text)];
            var ms := [Message("1", "assistant", text), Message("2", "human_agent", text)];
            && InOrder(2, [0, 1, 0, 1], 0) && NoLocals(ms) && !StableIds(items + ms) && !LosesNothing(items, ms, 2)
            && |Deliver(items, ms, [0, 1, 0, 1])| == 2 && |UpsertAll(items, ms)| == 1
  {
    hide Upsert, Fingerprint, LosesNothing;
    var items := [Message("2", "customer", other), Message("local-1", "human_agent", text)];
    var ms := [Message("1", "assistant", text), Message("2", "human_agent", text)];
    ReusedIdPrints(text, other);
    FirstDeliveries(text, other);
    FourDeliveries(items, ms[0], ms[1]);
    assert items[0] in items + ms && ms[1] in items + ms && ("agent:" + text)[0] == 'a';
    TwoThenTwo();
    if LosesNothing(items, ms, 2) { RedeliveryInvisible(items, ms, [0, 1, 0, 1]); }
  }

  lemma TwoThenTwo()
    ensures InOrder(2, [0, 1, 0, 1], 0)
  {
    assert [0, 1, 0, 1][1..] == [1, 0, 1] && [1, 0, 1][1..] == [0, 1] && [0, 1][1..] == [1] && [1][1..] == [];
    assert InOrder(2, [0, 1], 2);
  }

  lemma ReusedIdPrints(text: string, other: string)
    requires text != other
    ensures Fingerprint(Message("1", "assistant", text)) == "agent:" + text
    ensures Fingerprint(Message("2", "human_agent", text)) == "agent:" + text
    ensures Fingerprint(Message("local-1", "human_agent", text)) == "agent:" + text
    ensures Fingerprint(Message("2", "customer", other))[0] == 'c'
  {
  }

  lemma ListOfOne(x: Message, m: Message)
    ensures WithoutLocal([x], m) == if Replaces(m, x) then [] else [x]
    ensures Shows([x], m) <==> x.id == m.id || Fingerprint(x) == Fingerprint(m)
  {
    hide Replaces, Fingerprint;
    assert [x][1..] == [] && x in [x];
  }

  lemma ListOfTwo(x: Message, y: Message, m: Message)
    ensures WithoutLocal([x, y], m)
            == (if Replaces(m, x) then [] else [x]) + (if Replaces(m, y) then [] else [y])
    ensures Shows([x, y], m)
            <==> x.id == m.id || y.id == m.id || Fingerprint(x) == Fingerprint(m) || Fingerprint(y) == Fingerprint(m)
  {
    hide Replaces, Fingerprint;
    ListOfOne(y, m);
    assert [x, y][1..] == [y] && x in [x, y] && y in [x, y];
  }

  lemma FirstDeliveries(text: string, other: string)
    requires text != "" && other != "" && text != other
    ensures var shown, local := Message("2", "customer", other), Message("local-1", "human_agent", text);
            var m1, m2 := Message("1", "assistant", text), Message("2", "human_agent", text);
            && Upsert([shown, local], m1) == [shown, local]
            && Upsert([shown, local], m2) == [shown]
            && Upsert([shown], m1) == [shown, m1]
            && Upsert([shown, m1], m2) == [shown, m1]
  {
    hide Fingerprint, WithoutLocal, Shows;
    ReusedIdPrints(text, other);
    var shown, local := Message("2", "customer", other), Message("local-1", "human_agent", text);
    var m1, m2 := Message("1", "assistant", text), Message("2", "human_agent", text);
    assert ("agent:" + text)[0] == 'a' && "2"[0] != "1"[0] && "local-1"[..6] == "local-";
    assert |"human_agent"| != |"assistant"| && |"human_agent"| != |"customer"|;
    ListOfTwo(shown, local, m1);
    ListOfTwo(shown, local, m2);
    ListOfOne(shown, m1);
    ListOfOne(shown, m2);
    ListOfTwo(shown, m1, m2);
    assert [shown] + [local] == [shown, local] && [shown] + [] == [shown] && [shown] + [m1] == [shown, m1];
  }

  lemma FourDeliveries(items: seq<Message>, m1: Message, m2: Message)
    ensures Deliver(items, [m1, m2], [0, 1, 0, 1])
            == Upsert(Upsert(Upsert(Upsert(items, m1), m2), m1), m2)
    ensures UpsertAll(items, [m1, m2]) == Upsert(Upsert(items, m1), m2)
  {
    hide Upsert;
    var a, b := Upsert(items, m1), Upsert(Upsert(items, m1), m2);
    assert [0, 1, 0, 1][1..] == [1, 0, 1] && [1, 0, 1][1..] == [0, 1] && [0, 1][1..] == [1] && [1][1..] == [];
    assert Deliver(b, [m1, m2], [0, 1]) == Upsert(Upsert(b, m1), m2);
    assert [m1, m2][1..] == [m2] && [m2][1..] == [];
    assert UpsertAll(a, [m2]) == b;
  }
}
