/**
 * Branch identifiers and the id lists a branch keeps of its parents and children.
 *
 * A `System.Guid` is a 128-bit value; `Guid.Empty` (all zero bits) is the marker a
 * branch carries when its construction failed. The lists are `List<Guid>`: ordered,
 * duplicates allowed, and `List.Remove` deletes only the first occurrence.
 */
module Identity {

  newtype Guid = x: int | 0 <= x < 0x1_0000_0000_0000_0000_0000_0000_0000_0000

  /** `Guid.Empty` */
  const EmptyGuid: Guid := 0

  /** Index of the first occurrence of `x` in `s`. */
  function IndexOf<T(==)>(s: seq<T>, x: T): (i: nat)
    requires x in s
    ensures i < |s| && s[i] == x && x !in s[..i]
  {
    if s[0] == x then 0 else 1 + IndexOf(s[1..], x)
  }

  /** `List<T>.Remove(x)`: drops the first element equal to `x`, if there is one. */
  function RemoveFirst<T(==)>(s: seq<T>, x: T): (r: seq<T>)
    ensures multiset(r) == multiset(s) - multiset{x}
    ensures |r| == if x in s then |s| - 1 else |s|
  {
    if s == [] then []
    else
      assert s == [s[0]] + s[1..];
      if s[0] == x then s[1..]
      else [s[0]] + RemoveFirst(s[1..], x)
  }

  /** Removing an id that is not in the list leaves the list as it was. */
  lemma {:induction false} RemoveFirstAbsent<T>(s: seq<T>, x: T)
    requires x !in s
    ensures RemoveFirst(s, x) == s
  {
    if s != [] {
      RemoveFirstAbsent(s[1..], x);
    }
  }

  /** Removing a present id cuts out exactly its first occurrence; later copies stay. */
  lemma {:induction false} RemoveFirstPresent<T>(s: seq<T>, x: T)
    requires x in s
    ensures RemoveFirst(s, x) == s[..IndexOf(s, x)] + s[IndexOf(s, x) + 1..]
  {
    if s[0] != x {
      var t := s[1..];
      RemoveFirstPresent(t, x);
      var i := IndexOf(t, x);
      assert s == [s[0]] + t;
      ConsSplice(s[0], t, i);
    }
  }

  lemma ConsSplice<T>(a: T, t: seq<T>, i: nat)
    requires i < |t|
    ensures [a] + (t[..i] + t[i + 1..]) == ([a] + t)[..i + 1] + ([a] + t)[i + 2..]
  {
    assert ([a] + t)[..i + 1] == [a] + t[..i];
    assert ([a] + t)[i + 2..] == t[i + 1..];
  }

  /** Appending then removing an id that was not yet listed gives the list back. */
  lemma {:induction false} RemoveAfterAppendFresh<T>(s: seq<T>, x: T)
    requires x !in s
    ensures RemoveFirst(s + [x], x) == s
  {
    if s != [] {
      assert (s + [x])[1..] == s[1..] + [x];
      RemoveAfterAppendFresh(s[1..], x);
    }
  }

  /**
   * Appending then removing an id that was already listed takes out the EARLIER copy:
   * the result is the list with its first copy removed and the new copy at the end.
   */
  lemma {:induction false} RemoveAfterAppendListed<T>(s: seq<T>, x: T)
    requires x in s
    ensures RemoveFirst(s + [x], x) == RemoveFirst(s, x) + [x]
  {
    assert (s + [x])[0] == s[0];
    if s[0] != x {
      assert (s + [x])[1..] == s[1..] + [x];
      RemoveAfterAppendListed(s[1..], x);
    } else {
      assert (s + [x])[1..] == s[1..] + [x];
    }
  }

  /**
   * So appending then removing a listed id restores the list exactly when every element
   * from its first copy onwards is that id.
   */
  lemma RemoveAfterAppendRestores<T>(s: seq<T>, x: T)
    requires x in s
    ensures RemoveFirst(s + [x], x) == s <==> forall j :: IndexOf(s, x) <= j < |s| ==> s[j] == x
  {
    RemoveAfterAppendListed(s, x);
    RemoveFirstPresent(s, x);
    var i := IndexOf(s, x);
    if s[..i] + s[i + 1..] + [x] == s {
      forall j | i <= j < |s|
        ensures s[j] == x
      {
        RestoresFrom(s, x, i, j);
      }
    } else if forall j :: i <= j < |s| ==> s[j] == x {
      TailOfXRestores(s, x, i);
    }
  }

  /** Helper for `RemoveAfterAppendRestores`: a tail of `x`s survives the splice. */
  lemma TailOfXRestores<T>(s: seq<T>, x: T, i: nat)
    requires i < |s|
    requires forall j :: i <= j < |s| ==> s[j] == x
    ensures s[..i] + s[i + 1..] + [x] == s
  {
    var r := s[..i] + s[i + 1..] + [x];
    forall j | 0 <= j < |s|
      ensures r[j] == s[j]
    {
      if j < i {
        assert r[j] == s[j];
      } else if j < |s| - 1 {
        assert r[j] == s[j + 1];
      }
    }
  }

  /** Helper for `RemoveAfterAppendRestores`: a restored list holds `x` from `i` to `j`. */
  lemma {:induction false} RestoresFrom<T>(s: seq<T>, x: T, i: nat, j: nat)
    requires i < |s| && s[i] == x && i <= j < |s|
    requires s[..i] + s[i + 1..] + [x] == s
    ensures s[j] == x
    decreases j - i
  {
    if j > i {
      var r := s[..i] + s[i + 1..] + [x];
      assert r[j - 1] == s[j];
      RestoresFrom(s, x, i, j - 1);
    }
  }
}
