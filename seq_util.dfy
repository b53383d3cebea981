/**
 * Small facts about sequences used by the builders: the generator keeps its
 * dependency lists as C# List<string> and guards some insertions with
 * List.Contains.
 */
module SeqUtil {

  /**
   * Proof glue for the alert loops: regroups an append so a loop invariant
   * can be matched. It states no property of the generator.
   */
  lemma AppendInTwoSteps<T>(a: seq<T>, b: seq<T>, c: seq<T>)
    ensures (a + b) + c == a + (b + c)
  {
  }

  /** No element occurs twice. */
  predicate NoDuplicates<T(==)>(s: seq<T>) {
    forall i, j :: 0 <= i < j < |s| ==> s[i] != s[j]
  }

  /** The "add only if absent" idiom: `if (!list.Contains(x)) list.Add(x);`. */
  function AddIfAbsent<T(==)>(s: seq<T>, x: T): (r: seq<T>)
    ensures x in r
    ensures forall i :: 0 <= i < |r| ==> r[i] in s || r[i] == x
    ensures forall i :: 0 <= i < |s| ==> s[i] in r
    ensures NoDuplicates(s) ==> NoDuplicates(r)
    ensures |r| <= |s| + 1
  {
    if x in s then s else s + [x]
  }

  /** Number of occurrences of x in s. */
  function Count<T(==)>(s: seq<T>, x: T): nat
  {
    if s == [] then 0 else Count(s[..|s| - 1], x) + (if s[|s| - 1] == x then 1 else 0)
  }

  lemma {:induction false} CountOfNoDuplicates<T>(s: seq<T>, x: T)
    requires NoDuplicates(s)
    ensures Count(s, x) == (if x in s then 1 else 0)
  {
    if s != [] {
      var init := s[..|s| - 1];
      assert NoDuplicates(init);
      CountOfNoDuplicates(init, x);
      assert s == init + [s[|s| - 1]];
      if s[|s| - 1] == x {
        assert x !in init by {
          forall i | 0 <= i < |init| ensures init[i] != x {
            assert s[i] == init[i];
          }
        }
      }
    }
  }
}
