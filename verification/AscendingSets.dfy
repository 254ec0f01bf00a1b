/** The order in which C++ walks a std::set or std::map: ascending, each element once. */
module AscendingSets {
  import opened Bytes

  ghost predicate IsAscending(s: seq<Word>) {
    forall i, j :: 0 <= i < j < |s| ==> s[i] < s[j]
  }

  function Elements(s: seq<Word>): set<Word> {
    set x | x in s
  }

  predicate IsLeast(m: Word, s: set<Word>) {
    m in s && forall x :: x in s ==> m <= x
  }

  lemma {:induction false} HasLeast(s: set<Word>) returns (m: Word)
    requires s != {}
    ensures IsLeast(m, s)
  {
    var first :| first in s;
    var rest := s - {first};
    assert s == rest + {first};
    m := first;
    if rest != {} {
      var other := HasLeast(rest);
      if other < first {
        m := other;
      }
    }
  }

  function Ascending(s: set<Word>): (r: seq<Word>)
    ensures IsAscending(r)
    ensures forall x :: x in r <==> x in s
  {
    if s == {} then []
    else
      assert exists m :: IsLeast(m, s) by {
        var m := HasLeast(s);
      }
      var m :| IsLeast(m, s);
      var rest := Ascending(s - {m});
      assert forall i :: 0 <= i < |rest| ==> rest[i] in s - {m};
      [m] + rest
  }

  /** There is only one ascending enumeration of a set. */
  lemma {:induction false} AscendingIsUnique(a: seq<Word>, b: seq<Word>)
    requires IsAscending(a) && IsAscending(b)
    requires forall x :: x in a <==> x in b
    ensures a == b
  {
    assert |b| > 0 ==> b[0] in b;
    assert |a| > 0 ==> a[0] in a;
    if |a| > 0 && |b| > 0 {
      assert a[0] in b && b[0] in a;
      assert a[0] == b[0];
      forall x
        ensures x in a[1..] <==> x in b[1..]
      {
        assert x in a[1..] ==> x in a && x != a[0];
        assert x in b[1..] ==> x in b && x != b[0];
      }
      AscendingIsUnique(a[1..], b[1..]);
    }
  }
}
