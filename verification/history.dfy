/** The "Recent Searches" list: the latest question first, each question at most once,
    at most ten entries. */
module History {
  import opened Domain

  const Limit := 10

  /** The history with every copy of `q` removed, the rest in their order. */
  function Without(h: seq<string>, q: string): (r: seq<string>)
    ensures |r| <= |h|
    ensures forall x :: x in r <==> x in h && x != q
    ensures q !in h ==> r == h
    ensures Distinct(h) ==> Distinct(r)
  {
    if h == [] then []
    else if h[0] == q then Without(h[1..], q)
    else
      var rest := Without(h[1..], q);
      assert Distinct(h) ==> h[0] !in h[1..];
      [h[0]] + rest
  }

  /** Records a question: it moves to the front, and the list is cut to ten. */
  function Add(h: seq<string>, q: string): (r: seq<string>)
    ensures 1 <= |r| <= Limit && r[0] == q
    ensures q !in r[1..]
    ensures forall x :: x in r ==> x == q || x in h
    ensures |h| < Limit ==> forall x :: x in h ==> x in r
    ensures Distinct(h) ==> Distinct(r)
  {
    var full := [q] + Without(h, q);
    assert full[1..] == Without(h, q);
    if |full| <= Limit then full
    else
      assert full[..Limit][1..] == Without(h, q)[..Limit - 1];
      full[..Limit]
  }

  /** Removing a question that occurs only at position `i` closes the gap. */
  lemma {:induction false} WithoutAt(h: seq<string>, q: string, i: nat)
    requires i < |h| && h[i] == q && q !in h[..i] && q !in h[i + 1..]
    ensures Without(h, q) == h[..i] + h[i + 1..]
    decreases i
  {
    if i == 0 {
      calc {
        Without(h, q);
        Without(h[1..], q);
        h[1..];
        h[..0] + h[1..];
      }
    } else {
      var t := h[1..];
      assert t[..i - 1] == h[1..i] && t[i..] == h[i + 1..];
      assert h[0] in h[..i];
      calc {
        Without(h, q);
        [h[0]] + Without(t, q);
        { WithoutAt(t, q, i - 1); }
        [h[0]] + (h[1..i] + h[i + 1..]);
        { assert h[..i] == [h[0]] + h[1..i]; }
        h[..i] + h[i + 1..];
      }
    }
  }

  /** Asking a question already in the history moves it to the front and changes
      nothing else. */
  lemma AddExisting(h: seq<string>, q: string, i: nat)
    requires Distinct(h) && |h| <= Limit && i < |h| && h[i] == q
    ensures Add(h, q) == [q] + h[..i] + h[i + 1..]
    ensures |Add(h, q)| == |h|
  {
    assert q !in h[..i] && q !in h[i + 1..] by {
      forall j | 0 <= j < |h| && j != i
        ensures h[j] != q
      {
      }
    }
    WithoutAt(h, q, i);
  }

  /** Asking a new question puts it in front; when the list is full the oldest entry
      falls off. */
  lemma AddNew(h: seq<string>, q: string)
    requires q !in h && |h| <= Limit
    ensures |h| < Limit ==> Add(h, q) == [q] + h
    ensures |h| == Limit ==> Add(h, q) == [q] + h[..Limit - 1]
  {
  }

  /** Asking the same question twice in a row records it once. */
  lemma AddIdempotent(h: seq<string>, q: string)
    ensures Add(Add(h, q), q) == Add(h, q)
  {
    var r := Add(h, q);
    assert r == [q] + r[1..];
    assert Without(r, q) == Without(r[1..], q) == r[1..];
  }

  /** The history after a sequence of questions, oldest first. */
  function AddAll(h: seq<string>, qs: seq<string>): seq<string>
    decreases |qs|
  {
    if qs == [] then h else AddAll(Add(h, qs[0]), qs[1..])
  }

  function Reverse<T>(s: seq<T>): (r: seq<T>)
    ensures |r| == |s|
  {
    if s == [] then [] else Reverse(s[1..]) + [s[0]]
  }

  /** Whatever is asked, the history stays duplicate-free and within the limit, shows
      the last question first, and holds nothing that was not there or asked. */
  lemma {:induction false} AddAllKeepsShape(h: seq<string>, qs: seq<string>)
    requires Distinct(h) && |h| <= Limit
    ensures Distinct(AddAll(h, qs)) && |AddAll(h, qs)| <= Limit
    ensures qs != [] ==> |AddAll(h, qs)| > 0 && AddAll(h, qs)[0] == qs[|qs| - 1]
    ensures forall x :: x in AddAll(h, qs) ==> x in h || x in qs
    decreases |qs|
  {
    if qs != [] {
      var h', rest := Add(h, qs[0]), qs[1..];
      var r := AddAll(h', rest);
      assert AddAll(h, qs) == r;
      AddAllKeepsShape(h', rest);
      if rest == [] {
        assert r == h';
      } else {
        assert rest[|rest| - 1] == qs[|qs| - 1];
      }
      forall x | x in r
        ensures x in h || x in qs
      {
        if x in rest {
          assert x in qs;
        }
      }
    }
  }

  /** The questions after the first are distinct, differ from the first, and are new
      to a history that has the first in front. */
  lemma FreshTail(h: seq<string>, qs: seq<string>)
    requires qs != [] && Distinct(qs)
    requires forall i | 0 <= i < |qs| :: qs[i] !in h
    ensures Distinct(qs[1..])
    ensures forall i | 0 <= i < |qs[1..]| :: qs[1..][i] !in [qs[0]] + h
  {
    var rest := qs[1..];
    forall i, j | 0 <= i < j < |rest|
      ensures rest[i] != rest[j]
    {
      assert rest[i] == qs[i + 1] && rest[j] == qs[j + 1];
    }
    forall i | 0 <= i < |rest|
      ensures rest[i] !in [qs[0]] + h
    {
      assert rest[i] == qs[i + 1];
    }
  }

  function Min(a: int, b: int): int
  {
    if a <= b then a else b
  }

  /** A prefix of `a + s[..m]` that does not reach past its end is a prefix of `a + s`. */
  lemma PrefixAppend(a: seq<string>, s: seq<string>, m: nat, n: nat)
    requires m <= |s| && n <= |a| + m
    ensures (a + s[..m])[..n] == (a + s)[..n]
  {
    forall k | 0 <= k < n
      ensures (a + s[..m])[k] == (a + s)[k]
    {
      if k >= |a| {
        assert (a + s[..m])[k] == s[..m][k - |a|];
      }
    }
  }

  /** Recording a new question into a history that has room for it, or into a full
      one: the question goes in front of what stays. */
  lemma AddFresh(h: seq<string>, q: string)
    requires q !in h && |h| <= Limit
    ensures Add(h, q) == ([q] + h)[..Min(Limit, 1 + |h|)]
  {
    AddNew(h, q);
    if |h| == Limit {
      assert ([q] + h)[..Limit] == [q] + h[..Limit - 1];
    }
  }

  /** After a new question is recorded, the questions still to come remain new. */
  lemma FreshAfterAdd(h: seq<string>, qs: seq<string>)
    requires qs != [] && Distinct(qs)
    requires forall i | 0 <= i < |qs| :: qs[i] !in h
    ensures Distinct(qs[1..])
    ensures forall i | 0 <= i < |qs[1..]| :: qs[1..][i] !in Add(h, qs[0])
  {
    FreshTail(h, qs);
  }

  lemma ReverseFront(h: seq<string>, qs: seq<string>)
    requires qs != []
    ensures Reverse(qs[1..]) + ([qs[0]] + h) == Reverse(qs) + h
  {
    var f := Reverse(qs[1..]);
    calc {
      Reverse(qs) + h;
      (f + [qs[0]]) + h;
      f + ([qs[0]] + h);
    }
  }

  lemma MinShift(a: nat, b: nat)
    requires a <= Limit && b > 0
    ensures Min(Limit, b - 1 + Min(Limit, 1 + a)) == Min(Limit, b + a)
  {
  }

  /** The newest entries behind the questions still to come, rewritten as the newest
      entries behind all the questions. */
  lemma NewestFirst(h: seq<string>, qs: seq<string>)
    requires qs != [] && |h| <= Limit
    ensures var m := Min(Limit, 1 + |h|);
      (Reverse(qs[1..]) + ([qs[0]] + h)[..m])[..Min(Limit, |qs| - 1 + m)]
      == (Reverse(qs) + h)[..Min(Limit, |qs| + |h|)]
  {
    MinShift(|h|, |qs|);
    ReverseFront(h, qs);
    PrefixAppend(Reverse(qs[1..]), [qs[0]] + h, Min(Limit, 1 + |h|), Min(Limit, |qs| - 1 + Min(Limit, 1 + |h|)));
  }

  /** Different new questions are kept newest first, and once there are more than
      fit only the ten newest entries remain. */
  lemma {:induction false} AddAllDistinct(h: seq<string>, qs: seq<string>)
    requires Distinct(qs) && |h| <= Limit
    requires forall i | 0 <= i < |qs| :: qs[i] !in h
    ensures AddAll(h, qs) == (Reverse(qs) + h)[..Min(Limit, |qs| + |h|)]
    decreases |qs|
  {
    if qs == [] {
      assert Reverse(qs) + h == h;
    } else {
      var h1 := Add(h, qs[0]);
      FreshAfterAdd(h, qs);
      AddAllDistinct(h1, qs[1..]);
      AddFresh(h, qs[0]);
      NewestFirst(h, qs);
    }
  }

  /** Asking X, then Y, then X again leaves X first and Y second. */
  lemma RepeatAfterOther(x: string, y: string)
    requires x != y
    ensures AddAll([], [x, y, x]) == [x, y]
  {
    assert Add([], x) == [x];
    assert Add([x], y) == [y, x];
    AddExisting([y, x], x, 1);
    assert Add([y, x], x) == [x, y];
    calc {
      AddAll([], [x, y, x]);
      { assert [x, y, x][1..] == [y, x]; }
      AddAll([x], [y, x]);
      { assert [y, x][1..] == [x]; }
      AddAll([y, x], [x]);
      { assert [x][1..] == []; }
      AddAll([x, y], []);
    }
  }
}
