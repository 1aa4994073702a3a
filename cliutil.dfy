/** Command-line helpers (cliutil/cliutil.go). */
module CliUtil {

  /** How many entries of `flags` equal `name`. */
  function Occurrences(name: string, flags: seq<string>): nat {
    if flags == [] then 0
    else Occurrences(name, flags[..|flags| - 1]) + (if flags[|flags| - 1] == name then 1 else 0)
  }

  /** The number of pairs (n, f), n from `names` and f from `flags`, with n == f. */
  function PairCount(names: seq<string>, flags: seq<string>): nat {
    if names == [] then 0
    else PairCount(names[..|names| - 1], flags) + Occurrences(names[|names| - 1], flags)
  }

  predicate NoDuplicates(s: seq<string>) {
    forall i, j :: 0 <= i < j < |s| ==> s[i] != s[j]
  }

  /** `ContainsAllFlags`: counts the matching (name, context flag) pairs
      and compares the count with the number of names asked for. With no
      repeated flag in the context this is "every name is a flag of the
      context". */
  method ContainsAllFlags(contextFlags: seq<string>, flagNames: seq<string>) returns (r: bool)
    ensures r <==> PairCount(flagNames, contextFlags) == |flagNames|
    ensures flagNames == [] ==> r
    ensures NoDuplicates(contextFlags) ==>
      (r <==> forall i :: 0 <= i < |flagNames| ==> flagNames[i] in contextFlags)
  {
    var z := 0;
    for i := 0 to |flagNames|
      invariant z == PairCount(flagNames[..i], contextFlags)
    {
      var n := flagNames[i];
      for j := 0 to |contextFlags|
        invariant z == PairCount(flagNames[..i], contextFlags) + Occurrences(n, contextFlags[..j])
      {
        assert contextFlags[..j + 1][..j] == contextFlags[..j];
        if n == contextFlags[j] {
          z := z + 1;
        }
      }
      assert contextFlags[..|contextFlags|] == contextFlags;
      assert flagNames[..i + 1][..i] == flagNames[..i];
    }
    assert flagNames[..|flagNames|] == flagNames;
    r := z == |flagNames|;
    if NoDuplicates(contextFlags) {
      AllPairsIffAllPresent(flagNames, contextFlags);
    }
  }

  /** In a list without repetitions a name occurs once if present, else never. */
  lemma {:induction false} OccurrencesWithoutDuplicates(name: string, flags: seq<string>)
    requires NoDuplicates(flags)
    ensures Occurrences(name, flags) == if name in flags then 1 else 0
  {
    if flags != [] {
      var init := flags[..|flags| - 1];
      assert flags == init + [flags[|flags| - 1]];
      OccurrencesWithoutDuplicates(name, init);
      if flags[|flags| - 1] == name {
        assert name !in init by {
          forall i | 0 <= i < |init| ensures init[i] != name {
            assert flags[i] != flags[|flags| - 1];
          }
        }
      }
    }
  }

  /** With no repeated context flag, the pair count reaches the number of
      names exactly when every name is present. */
  lemma {:induction false} AllPairsIffAllPresent(names: seq<string>, flags: seq<string>)
    requires NoDuplicates(flags)
    ensures PairCount(names, flags) <= |names|
    ensures PairCount(names, flags) == |names| <==> forall i :: 0 <= i < |names| ==> names[i] in flags
  {
    if names != [] {
      var init := names[..|names| - 1];
      var last := names[|names| - 1];
      AllPairsIffAllPresent(init, flags);
      OccurrencesWithoutDuplicates(last, flags);
      if PairCount(names, flags) == |names| {
        forall i | 0 <= i < |names| ensures names[i] in flags {
          if i < |names| - 1 { assert names[i] == init[i]; }
        }
      }
      if forall i :: 0 <= i < |names| ==> names[i] in flags {
        forall i | 0 <= i < |init| ensures init[i] in flags {
          assert init[i] == names[i];
        }
      }
    }
  }

  /** With no repeated context flag, a name the context lacks makes the
      count fall short. */
  lemma MissingFlagFallsShort(names: seq<string>, flags: seq<string>, i: nat)
    requires NoDuplicates(flags) && i < |names| && names[i] !in flags
    ensures PairCount(names, flags) < |names|
  {
    AllPairsIffAllPresent(names, flags);
  }

  /** Repeated context flags break the reading of the doc comment in both
      directions: a missing name can be made up for by a repeated one, and a
      name that is present can be counted twice. */
  lemma RepeatedContextFlagsMiscount()
    ensures PairCount(["a", "b"], ["a", "a"]) == 2 && "b" !in ["a", "a"]
    ensures PairCount(["a"], ["a", "a"]) == 2 && "a" in ["a", "a"]
  {
    var both := ["a", "a"];
    assert ["a", "b"][..1] == ["a"] && both[..1] == ["a"];
    assert Occurrences("a", both) == 2;
    assert Occurrences("b", both) == 0;
  }
}
