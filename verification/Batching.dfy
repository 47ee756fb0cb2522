/** `chunk_by_size`: splitting a request into batches under a message-size budget. */
module Batching {
  ghost function Flatten<T>(batches: seq<seq<T>>): seq<T> {
    if batches == [] then [] else batches[0] + Flatten(batches[1..])
  }

  ghost function Size<T>(items: seq<T>, sizeOf: T -> nat): nat {
    if items == [] then 0 else Size(items[..|items| - 1], sizeOf) + sizeOf(items[|items| - 1])
  }

  /** A batch may be sent: it is not empty, and within budget unless it is a single item. */
  ghost predicate Sendable<T>(batch: seq<T>, budget: nat, sizeOf: T -> nat) {
    batch != [] && (|batch| == 1 || Size(batch, sizeOf) <= budget)
  }

  ghost predicate AllSendable<T>(batches: seq<seq<T>>, budget: nat, sizeOf: T -> nat) {
    forall i :: 0 <= i < |batches| ==> Sendable(batches[i], budget, sizeOf)
  }

  /** No batch had room for the item that follows it. */
  ghost predicate Packed<T>(batches: seq<seq<T>>, budget: nat, sizeOf: T -> nat) {
    forall i :: 0 < i < |batches| ==>
      batches[i] != [] && Size(batches[i - 1], sizeOf) + sizeOf(batches[i][0]) > budget
  }

  lemma {:induction false} FlattenMore<T>(batches: seq<seq<T>>, batch: seq<T>)
    ensures Flatten(batches + [batch]) == Flatten(batches) + batch
  {
    if batches != [] {
      assert (batches + [batch])[1..] == batches[1..] + [batch];
      FlattenMore(batches[1..], batch);
    }
  }

  lemma SizeMore<T>(items: seq<T>, item: T, sizeOf: T -> nat)
    ensures Size(items + [item], sizeOf) == Size(items, sizeOf) + sizeOf(item)
  {
    assert (items + [item])[..|items|] == items;
  }

  lemma Started<T>(item: T, budget: nat, sizeOf: T -> nat)
    ensures AllSendable([[item]], budget, sizeOf) && Packed([[item]], budget, sizeOf)
  {
  }

  lemma Continued<T>(batches: seq<seq<T>>, current: seq<T>, item: T, budget: nat, sizeOf: T -> nat)
    requires AllSendable(batches + [current], budget, sizeOf) && Packed(batches + [current], budget, sizeOf)
    requires current != [] && Size(current, sizeOf) + sizeOf(item) <= budget
    ensures AllSendable(batches + [current + [item]], budget, sizeOf)
    ensures Packed(batches + [current + [item]], budget, sizeOf)
  {
    var was, now := batches + [current], batches + [current + [item]];
    SizeMore(current, item, sizeOf);
    hide Size;
    assert forall i :: 0 <= i < |batches| ==> now[i] == was[i] && Sendable(was[i], budget, sizeOf);
    assert now[|batches|] == current + [item] && was[|batches|] == current;
  }

  lemma Flushed<T>(batches: seq<seq<T>>, current: seq<T>, item: T, budget: nat, sizeOf: T -> nat)
    requires AllSendable(batches + [current], budget, sizeOf) && Packed(batches + [current], budget, sizeOf)
    requires current != [] && Size(current, sizeOf) + sizeOf(item) > budget
    ensures AllSendable(batches + [current] + [[item]], budget, sizeOf)
    ensures Packed(batches + [current] + [[item]], budget, sizeOf)
  {
    hide Size;
    var was, now := batches + [current], batches + [current] + [[item]];
    assert forall i :: 0 <= i < |was| ==> now[i] == was[i] && Sendable(was[i], budget, sizeOf);
    assert now[|was|] == [item];
  }

  method ChunkBySize<T>(items: seq<T>, budget: nat, sizeOf: T -> nat) returns (batches: seq<seq<T>>)
    ensures Flatten(batches) == items
    ensures AllSendable(batches, budget, sizeOf)
    ensures Packed(batches, budget, sizeOf)
  {
    hide Flatten, Size, AllSendable, Packed, Sendable;
    batches := [];
    var current: seq<T> := [];
    var currentSize := 0;
    NothingBatched(budget, sizeOf);
    for i := 0 to |items|
      invariant Flatten(batches) + current == items[..i]
      invariant currentSize == Size(current, sizeOf)
      invariant if current == [] then batches == []
        else AllSendable(batches + [current], budget, sizeOf) && Packed(batches + [current], budget, sizeOf)
    {
      var item := items[i];
      var itemSize := sizeOf(item);
      assert items[..i + 1] == items[..i] + [item];
      SizeMore(current, item, sizeOf);
      SizeMore([], item, sizeOf);
      assert [] + [item] == [item] && [] + [[item]] == [[item]];
      if current == [] {
        Started(item, budget, sizeOf);
      } else if currentSize + itemSize <= budget {
        Continued(batches, current, item, budget, sizeOf);
      } else {
        Flushed(batches, current, item, budget, sizeOf);
      }
      if current != [] && currentSize + itemSize > budget {
        FlattenMore(batches, current);
        batches := batches + [current];
        current := [];
        currentSize := 0;
      }
      currentSize := currentSize + itemSize;
      current := current + [item];
    }
    assert items[..|items|] == items;
    if current != [] {
      FlattenMore(batches, current);
      batches := batches + [current];
    }
  }

  lemma NothingBatched<T>(budget: nat, sizeOf: T -> nat)
    ensures Flatten<T>([]) == [] && Size([], sizeOf) == 0
    ensures AllSendable([], budget, sizeOf) && Packed([], budget, sizeOf)
  {
  }

  lemma {:induction false} SizeOfParts<T>(s: seq<T>, t: seq<T>, sizeOf: T -> nat)
    ensures Size(s + t, sizeOf) == Size(s, sizeOf) + Size(t, sizeOf)
  {
    if t == [] {
      assert s + t == s;
    } else {
      assert (s + t)[..|s + t| - 1] == s + t[..|t| - 1];
      SizeOfParts(s, t[..|t| - 1], sizeOf);
    }
  }

  /** A batch that covers a packed batch and the item after it is over budget. */
  lemma TooBig<T>(batch: seq<T>, extra: seq<T>, packed: seq<T>, rest: seq<T>, budget: nat, sizeOf: T -> nat)
    requires batch == extra + packed + rest && packed != [] && rest != []
    requires Size(packed, sizeOf) + sizeOf(rest[0]) > budget
    ensures !Sendable(batch, budget, sizeOf)
  {
    SizeOfParts(extra + packed, rest, sizeOf);
    SizeOfParts(extra, packed, sizeOf);
    assert rest == [rest[0]] + rest[1..];
    SizeOfParts([rest[0]], rest[1..], sizeOf);
    assert Size([rest[0]], sizeOf) == sizeOf(rest[0]);
  }

  /** Two ways to cut one sequence in two. */
  lemma TwoCuts<T>(a: seq<T>, b: seq<T>, p: seq<T>, q: seq<T>)
    requires a + b == p + q
    ensures |a| <= |p| ==> b == p[|a|..] + q
    ensures |a| > |p| ==> a == p + a[|p|..] && q == a[|p|..] + b
  {
    var s := a + b;
    assert a == s[..|a|] && b == s[|a|..] && p == s[..|p|] && q == s[|p|..];
    if |a| <= |p| {
      assert b == s[|a|..|p|] + s[|p|..];
      assert p[|a|..] == s[|a|..|p|];
    } else {
      assert a == s[..|p|] + s[|p|..|a|];
      assert a[|p|..] == s[|p|..|a|];
    }
  }

  /** Greedy stays ahead: even a split that must first cover some `extra` items needs at least
      as many batches. */
  lemma {:induction false} PackedStaysAhead<T>(batches: seq<seq<T>>, extra: seq<T>, others: seq<seq<T>>,
      budget: nat, sizeOf: T -> nat)
    requires AllSendable(batches, budget, sizeOf) && Packed(batches, budget, sizeOf)
    requires AllSendable(others, budget, sizeOf)
    requires Flatten(others) == extra + Flatten(batches)
    ensures |batches| <= |others|
  {
    if batches != [] {
      var first, later := batches[0], batches[1..];
      assert first != [];
      var other, laters := others[0], others[1..];
      assert other + Flatten(laters) == (extra + first) + Flatten(later);
      assert Packed(later, budget, sizeOf) by {
        assert forall i :: 0 < i < |later| ==> later[i] == batches[i + 1] && later[i - 1] == batches[i];
      }
      TwoCuts(other, Flatten(laters), extra + first, Flatten(later));
      if |other| <= |extra + first| {
        var over := (extra + first)[|other|..];
        PackedStaysAhead(later, over, laters, budget, sizeOf);
      } else {
        var rest := other[|extra + first|..];
        assert Flatten(later)[0] == rest[0] && later != [];
        assert later[0] == batches[1] && later[0] != [];
        TooBig(other, extra, first, rest, budget, sizeOf);
      }
    }
  }

  /** No split of the same items, in the same order, into sendable batches uses fewer. */
  lemma GreedyIsOptimal<T>(batches: seq<seq<T>>, others: seq<seq<T>>, budget: nat, sizeOf: T -> nat)
    requires AllSendable(batches, budget, sizeOf) && Packed(batches, budget, sizeOf)
    requires AllSendable(others, budget, sizeOf) && Flatten(others) == Flatten(batches)
    ensures |batches| <= |others|
  {
    assert [] + Flatten(batches) == Flatten(batches);
    PackedStaysAhead(batches, [], others, budget, sizeOf);
  }
}
