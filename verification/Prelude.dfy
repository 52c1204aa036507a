/** Shared vocabulary: options, results and facts about duplicate-free sequences. */
module Prelude {
  datatype Option<+T> = None | Some(value: T)

  datatype Result<+T, +E> = Ok(value: T) | Err(error: E)

  ghost predicate NoDup<T>(s: seq<T>) {
    forall i, j :: 0 <= i < j < |s| ==> s[i] != s[j]
  }

  ghost function Elements<T>(s: seq<T>): set<T> {
    set x | x in s
  }

  /** `s` with the first occurrence of `x` taken out. */
  function Without<T(==)>(s: seq<T>, x: T): seq<T> {
    if s == [] then [] else if s[0] == x then s[1..] else [s[0]] + Without(s[1..], x)
  }

  lemma {:induction false} WithoutAt<T>(s: seq<T>, x: T, pos: nat)
    requires pos < |s| && s[pos] == x && x !in s[..pos]
    ensures Without(s, x) == s[..pos] + s[pos + 1..]
  {
    if pos > 0 {
      assert s[0] in s[..pos];
      assert s[1..][..pos - 1] == s[..pos][1..];
      WithoutAt(s[1..], x, pos - 1);
      assert s[..pos] == [s[0]] + s[1..][..pos - 1];
    }
  }

  lemma {:induction false} WithoutSplits<T>(s: seq<T>, x: T) returns (pos: nat)
    requires x in s
    ensures pos < |s| && s[pos] == x && Without(s, x) == s[..pos] + s[pos + 1..]
  {
    if s[0] == x {
      pos := 0;
    } else {
      var rest := WithoutSplits(s[1..], x);
      pos := rest + 1;
      assert [s[0]] + s[1..][..rest] == s[..pos];
    }
  }

  lemma {:induction false} WithoutAbsent<T>(s: seq<T>, x: T)
    requires x !in s
    ensures Without(s, x) == s
  {
    if s != [] {
      WithoutAbsent(s[1..], x);
    }
  }

  lemma Assoc<T>(a: seq<T>, b: seq<T>, c: seq<T>)
    ensures a + (b + c) == a + b + c
  {
  }

  lemma NoDupCons<T>(h: T, t: seq<T>)
    requires h !in t && NoDup(t)
    ensures NoDup([h] + t)
  {
    forall i, j | 0 <= i < j < |[h] + t|
      ensures ([h] + t)[i] != ([h] + t)[j]
    {
      assert ([h] + t)[j] == t[j - 1];
    }
  }

  lemma NoDupSnoc<T>(s: seq<T>, x: T)
    requires x !in s && NoDup(s)
    ensures NoDup(s + [x])
  {
  }

  lemma {:induction false} WithoutElements<T(!new)>(s: seq<T>, x: T)
    requires NoDup(s)
    ensures NoDup(Without(s, x))
    ensures forall y :: y in Without(s, x) <==> y in s && y != x
  {
    if s != [] {
      var h, t := s[0], s[1..];
      assert forall y :: y in s <==> y == h || y in t;
      WithoutElements(t, x);
      if h != x {
        var w := Without(t, x);
        NoDupCons(h, w);
        assert forall y :: y in [h] + w <==> y == h || y in w;
      }
    }
  }

  lemma {:induction false} NoDupCard<T>(s: seq<T>)
    requires NoDup(s)
    ensures |Elements(s)| == |s|
  {
    if s != [] {
      NoDupCard(s[1..]);
      assert Elements(s) == {s[0]} + Elements(s[1..]);
    }
  }
}
