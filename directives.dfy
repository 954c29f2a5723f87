/** The directive-gated injection of `Program.exit` (plugin.js:67-77). The
    loop walks the program's directive list by index, and for each directive
    whose value is "use runtime-nodent" it splices the directive out and,
    the first time only, prepends the runtime statement to the body. Because
    the index still advances after a splice, the directive that moved into
    the removed one's place is never looked at: a matching directive right
    after a removed one stays. The model keeps that behaviour. */
module Directives {

  /** A directive of the program (`"use strict";` and the like), reduced to
      its literal value (`directive.value.value`). */
  datatype Directive = Directive(value: string)

  /** The directive that asks for the runtime to be inlined. */
  const RuntimeDirective: string := "use runtime-nodent"

  predicate IsRuntimeDirective(d: Directive) {
    d.value == RuntimeDirective
  }

  predicate AnyRuntimeDirective(ds: seq<Directive>) {
    exists i :: 0 <= i < |ds| && IsRuntimeDirective(ds[i])
  }

  /** The directive list the loop leaves behind: a match is removed and the
      directive after it is kept without being examined. */
  function Walked(ds: seq<Directive>): (r: seq<Directive>)
    ensures |r| <= |ds|
    decreases |ds|
  {
    if ds == [] then []
    else if !IsRuntimeDirective(ds[0]) then [ds[0]] + Walked(ds[1..])
    else if |ds| == 1 then []
    else [ds[1]] + Walked(ds[2..])
  }

  /** The other directives, in order: what removing every match gives. */
  function Others(ds: seq<Directive>): (r: seq<Directive>)
    ensures forall i :: 0 <= i < |r| ==> !IsRuntimeDirective(r[i])
  {
    if ds == [] then []
    else if IsRuntimeDirective(ds[0]) then Others(ds[1..])
    else [ds[0]] + Others(ds[1..])
  }

  /** The number of runtime directives in a list. */
  function Matches(ds: seq<Directive>): (n: nat)
    ensures n <= |ds|
    ensures n == 0 <==> !AnyRuntimeDirective(ds)
  {
    if ds == [] then 0
    else
      assert AnyRuntimeDirective(ds) <==> IsRuntimeDirective(ds[0]) || AnyRuntimeDirective(ds[1..]) by {
        if AnyRuntimeDirective(ds[1..]) {
          var i :| 0 <= i < |ds[1..]| && IsRuntimeDirective(ds[1..][i]);
          assert ds[i + 1] == ds[1..][i];
        }
        if AnyRuntimeDirective(ds) && !IsRuntimeDirective(ds[0]) {
          var i :| 0 <= i < |ds| && IsRuntimeDirective(ds[i]);
          assert ds[1..][i - 1] == ds[i];
        }
      }
      (if IsRuntimeDirective(ds[0]) then 1 else 0) + Matches(ds[1..])
  }

  /** The walk removes at least one directive exactly when there is a
      match: the first match is always examined. */
  lemma {:induction false} WalkedShrinksIffMatch(ds: seq<Directive>)
    ensures |Walked(ds)| < |ds| <==> AnyRuntimeDirective(ds)
    decreases |ds|
  {
    if ds != [] {
      assert Matches(ds) == (if IsRuntimeDirective(ds[0]) then 1 else 0) + Matches(ds[1..]);
      if !IsRuntimeDirective(ds[0]) {
        WalkedShrinksIffMatch(ds[1..]);
      }
    }
  }

  /** The walk keeps every other directive in its order and adds nothing:
      only runtime directives are ever removed. */
  lemma {:induction false} WalkedKeepsOthers(ds: seq<Directive>)
    ensures Others(Walked(ds)) == Others(ds)
    decreases |ds|
  {
    if ds == [] {
    } else if !IsRuntimeDirective(ds[0]) {
      WalkedKeepsOthers(ds[1..]);
      assert ([ds[0]] + Walked(ds[1..]))[1..] == Walked(ds[1..]);
    } else if |ds| > 1 {
      WalkedKeepsOthers(ds[2..]);
      assert ds[1..][1..] == ds[2..];
      assert ([ds[1]] + Walked(ds[2..]))[1..] == Walked(ds[2..]);
    }
  }

  /** Each runtime directive that survives the walk sat right after a
      removed one, so at most half of them survive; a lone one is always
      removed. */
  lemma {:induction false} WalkedRemovesMost(ds: seq<Directive>)
    ensures 2 * Matches(Walked(ds)) <= Matches(ds)
    decreases |ds|
  {
    if ds == [] {
    } else if !IsRuntimeDirective(ds[0]) {
      WalkedRemovesMost(ds[1..]);
      assert ([ds[0]] + Walked(ds[1..]))[1..] == Walked(ds[1..]);
    } else if |ds| > 1 {
      WalkedRemovesMost(ds[2..]);
      assert ds[1..][1..] == ds[2..];
      assert ([ds[1]] + Walked(ds[2..]))[1..] == Walked(ds[2..]);
    }
  }

  /** No two runtime directives stand next to each other. */
  predicate NoAdjacentRuntime(ds: seq<Directive>) {
    forall i :: 0 <= i < |ds| - 1 ==> !(IsRuntimeDirective(ds[i]) && IsRuntimeDirective(ds[i + 1]))
  }

  /** Without two matches side by side the walk removes every match, which
      is what the loop is meant to do. */
  lemma {:induction false} WalkedRemovesAllUnlessAdjacent(ds: seq<Directive>)
    requires NoAdjacentRuntime(ds)
    ensures Walked(ds) == Others(ds)
    decreases |ds|
  {
    if ds == [] {
    } else if !IsRuntimeDirective(ds[0]) {
      assert NoAdjacentRuntime(ds[1..]) by {
        assert forall i :: 0 <= i < |ds[1..]| ==> ds[1..][i] == ds[i + 1];
      }
      WalkedRemovesAllUnlessAdjacent(ds[1..]);
    } else if |ds| > 1 {
      assert !IsRuntimeDirective(ds[1]);
      assert NoAdjacentRuntime(ds[2..]) by {
        assert forall i :: 0 <= i < |ds[2..]| ==> ds[2..][i] == ds[i + 2];
      }
      WalkedRemovesAllUnlessAdjacent(ds[2..]);
      assert ds[1..][1..] == ds[2..];
    }
  }

  /** Two runtime directives in a row: the second one survives the walk. */
  lemma AdjacentDirectiveSurvives(other: seq<Directive>)
    ensures Walked([Directive(RuntimeDirective), Directive(RuntimeDirective)] + other)
         == [Directive(RuntimeDirective)] + Walked(other)
  {
  }

  /** The loop's progress: `index` may run one past the end after the last
      directive was spliced out; up to `index` the list already is the
      walk's result, and the rest is still to be walked. */
  ghost predicate Walking(original: seq<Directive>, ds: seq<Directive>, index: nat) {
    if index <= |ds| then Walked(original) == ds[..index] + Walked(ds[index..])
    else index == |ds| + 1 && Walked(original) == ds
  }

  lemma WalkingStart(ds: seq<Directive>)
    ensures Walking(ds, ds, 0)
  {
  }

  /** Stepping past a directive that does not match. */
  lemma WalkingSkip(original: seq<Directive>, ds: seq<Directive>, index: nat)
    requires index < |ds| && !IsRuntimeDirective(ds[index])
    requires Walking(original, ds, index)
    ensures Walking(original, ds, index + 1)
  {
  }

  /** Splicing out a match at `index` and stepping past the directive that
      moves into its place leaves the walk's result as it was. */
  lemma WalkingSplice(original: seq<Directive>, ds: seq<Directive>, index: nat)
    requires index < |ds| && IsRuntimeDirective(ds[index])
    requires Walking(original, ds, index)
    ensures Walking(original, ds[..index] + ds[index + 1..], index + 1)
  {
    var ds' := ds[..index] + ds[index + 1..];
    if index + 1 < |ds| {
      assert ds[index..][1] == ds[index + 1];
      assert ds[index..][2..] == ds[index + 2..];
      assert ds'[..index + 1] == ds[..index] + [ds[index + 1]];
      assert ds'[index + 1..] == ds[index + 2..];
    } else {
      assert ds[index..] == [ds[index]];
      assert ds' == ds[..index];
    }
  }

  lemma WalkingDone(original: seq<Directive>, ds: seq<Directive>, index: nat)
    requires index >= |ds| && Walking(original, ds, index)
    ensures ds == Walked(original)
  {
  }

  /** None of the first `index` directives is a runtime directive. */
  ghost predicate NoneBefore(ds: seq<Directive>, index: nat) {
    index <= |ds| && forall j :: 0 <= j < index ==> !IsRuntimeDirective(ds[j])
  }

  lemma NoneBeforeStep(ds: seq<Directive>, index: nat)
    requires NoneBefore(ds, index) && index < |ds| && !IsRuntimeDirective(ds[index])
    ensures NoneBefore(ds, index + 1)
  {
  }

  lemma NoneBeforeAll(ds: seq<Directive>)
    requires NoneBefore(ds, |ds|)
    ensures !AnyRuntimeDirective(ds)
  {
  }
}
