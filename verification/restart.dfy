/** Interrupted and repeated extraction of one layer, whatever its members are. */
module LayerRestart {
  import opened Outcomes
  import opened FileTrees
  import opened LayerExtraction

  predicate SameKind(m: Node, n: Node) {
    m.File? == n.File?
  }

  /** A tree with the kinds of `final` on every path that no action is going to delete; where `final` has
  nothing, only `under` may show. */
  ghost predicate Kinds(f: Tree, actions: seq<Action>, final: Tree, under: Tree) {
    forall q :: q in f && !AnyHits(actions, q) ==>
      if q in final then SameKind(f[q], final[q]) else q in under && under[q] == f[q]
  }

  /** What an interrupted extraction of `actions` may leave behind, `final` being the tree of a clean
  extraction: a leftover that no action is going to delete has the kind it has in `final`. */
  ghost predicate Leftover(f: Tree, actions: seq<Action>, final: Tree) {
    WellFormed(f) && Kinds(f, actions, final, map[])
  }

  /** The relation a clean run (`clean`) and a run that began on another tree (`again`) keep while `rest` is
  still to be applied: on every path nothing deletes any more they agree, up to entries that have the kind
  they have in `final`, and entries of `under` where `final` has none. */
  ghost predicate Catching(clean: Tree, again: Tree, rest: seq<Action>, final: Tree, under: Tree) {
    && WellFormed(clean) && WellFormed(again) && WellFormed(final)
    && Extract(clean, rest) == Extraction(true, final)
    && (forall q :: q in clean && !AnyHits(rest, q) ==> q in again && again[q] == clean[q])
    && Kinds(again, rest, final, under)
  }

  /** Paths no later action deletes persist, with their kind. */
  lemma {:induction false} KeptKind(t: Tree, rest: seq<Action>, q: Path)
    requires q in t && !AnyHits(rest, q)
    ensures q in Extract(t, rest).tree && SameKind(Extract(t, rest).tree[q], t[q])
    decreases |rest|
  {
    if rest != [] && !Aborts(t, rest[0]) {
      assert !Hits(rest[0], q);
      TailUntouched(rest, q);
      KeptKind(Apply(t, rest[0]), rest[1..], q);
    }
  }

  /** No action deletes an ancestor of a path that no action deletes. */
  lemma UnhitAncestor(rest: seq<Action>, a: Path, q: Path)
    requires Within(a, q) && !AnyHits(rest, q)
    ensures !AnyHits(rest, a)
  {
    if AnyHits(rest, a) {
      var i :| 0 <= i < |rest| && Hits(rest[i], a);
      assert Hits(rest[i], q);
    }
  }

  lemma CatchingStep(clean: Tree, again: Tree, rest: seq<Action>, final: Tree, under: Tree)
    requires rest != []
    requires Catching(clean, again, rest, final, under)
    requires !Aborts(again, rest[0])
    ensures Catching(Apply(clean, rest[0]), Apply(again, rest[0]), rest[1..], final, under)
  {
    var a, tail := rest[0], rest[1..];
    var c', s' := Apply(clean, a), Apply(again, a);
    ApplyWellFormed(clean, a);
    ApplyWellFormed(again, a);
    forall q | !AnyHits(tail, q)
      ensures q in c' ==> q in s' && s'[q] == c'[q]
      ensures q in s' ==> if q in final then SameKind(s'[q], final[q]) else q in under && under[q] == s'[q]
    {
      TailUntouched(rest, q);
      if !Hits(a, q) {
        if q in c' { KeptKind(c', tail, q); }
        if Fills(a, q) { FilledAlike(clean, again, rest, final, under, q); }
      }
    }
  }

  /** A file on the way to `p` lies above every path on that way that does not exist. */
  lemma FileAboveAbsentPath(t: Tree, a: Path, q: Path, p: Path)
    requires WellFormed(t) && IsFile(t, a)
    requires Inside(a, p) && Within(q, p) && q != []
    requires q == p || q !in t
    ensures Inside(a, q)
  {
    AncestorsCompare(a, q, p);
    if Within(q, a) { LeadsTo(t, q, a); }
  }

  /** If the clean run can create what leads to `q`, a safe path of `final`, so can the repeated run. */
  lemma NotBlockedAgain(clean: Tree, again: Tree, rest: seq<Action>, final: Tree, under: Tree, p: Path, q: Path)
    requires Catching(clean, again, rest, final, under)
    requires q != [] && Within(q, p) && !AnyHits(rest, q) && q in final
    requires q == p || q !in again
    requires !Blocked(clean, p)
    ensures !Blocked(again, p)
  {
    forall a | a in Ancestors(p) ensures !IsFile(again, a) {
      if IsFile(again, a) {
        FileAboveAbsentPath(again, a, q, p);
        UnhitAncestor(rest, a, q);
      }
    }
  }

  /** What blocks the clean run above a safe path blocks the repeated run too. */
  lemma BlockedAgain(clean: Tree, again: Tree, rest: seq<Action>, final: Tree, under: Tree, p: Path, q: Path)
    requires Catching(clean, again, rest, final, under)
    requires q != [] && Within(q, p) && !AnyHits(rest, q)
    requires q == p || q !in clean
    requires Blocked(clean, p)
    ensures Blocked(again, p)
  {
    var a :| a in Ancestors(p) && IsFile(clean, a);
    FileAboveAbsentPath(clean, a, q, p);
    UnhitAncestor(rest, a, q);
    assert IsFile(again, a);
  }

  /** A member put at or below a safe path has the same effect on that path in both runs. */
  lemma FilledAlike(clean: Tree, again: Tree, rest: seq<Action>, final: Tree, under: Tree, q: Path)
    requires rest != [] && Fills(rest[0], q) && !AnyHits(rest, q)
    requires Catching(clean, again, rest, final, under)
    requires q in Apply(clean, rest[0]) ==>
               q in final && SameKind(Apply(clean, rest[0])[q], final[q])
    ensures q in Apply(clean, rest[0]) ==>
              q in Apply(again, rest[0]) && Apply(again, rest[0])[q] == Apply(clean, rest[0])[q]
    ensures q in Apply(again, rest[0]) ==>
              if q in final then SameKind(Apply(again, rest[0])[q], final[q])
              else q in under && under[q] == Apply(again, rest[0])[q]
  {
    var p, n := rest[0].path, rest[0].node;
    if q == p {
      if Blocked(clean, p) {
        BlockedAgain(clean, again, rest, final, under, p, q);
      } else if Extractable(clean, p, n) {
        NotBlockedAgain(clean, again, rest, final, under, p, q);
      }
    } else if q !in clean {
      if Blocked(clean, p) {
        BlockedAgain(clean, again, rest, final, under, p, q);
      } else if q !in again {
        assert p !in clean && p !in again;
        NotBlockedAgain(clean, again, rest, final, under, p, q);
      }
    }
  }

  lemma {:induction false} CatchingAfter(
      clean: Tree, again: Tree, past: seq<Action>, rest: seq<Action>, final: Tree, under: Tree)
    requires Catching(clean, again, past + rest, final, under)
    requires Extract(again, past).done
    ensures Catching(Extract(clean, past).tree, Extract(again, past).tree, rest, final, under)
    decreases |past|
  {
    if past == [] {
      assert past + rest == rest;
    } else {
      CatchingStep(clean, again, past + rest, final, under);
      assert (past + rest)[1..] == past[1..] + rest;
      CatchingAfter(Apply(clean, past[0]), Apply(again, past[0]), past[1..], rest, final, under);
    }
  }

  // ---------------------------------------------------------------------------------------
  // Interruptions

  /** `t'` is what an extraction that starts from `t` leaves when it is cut off after `k` actions or
  inside action `k`. */
  ghost predicate CutOffAt(t: Tree, actions: seq<Action>, k: nat, t': Tree)
    requires k <= |actions|
  {
    var before := Extract(t, actions[..k]);
    before.done && (t' == before.tree || (k < |actions| && Torn(before.tree, actions[k], t')))
  }

  ghost predicate CutOff(t: Tree, actions: seq<Action>, t': Tree) {
    exists k: nat :: k <= |actions| && CutOffAt(t, actions, k, t')
  }

  lemma FewerHits(actions: seq<Action>, k: nat, q: Path)
    requires k <= |actions| && !AnyHits(actions, q)
    ensures !AnyHits(actions[k..], q)
  {
  }

  lemma StartsCatching(t: Tree, actions: seq<Action>, final: Tree)
    requires Extract(map[], actions) == Extraction(true, final)
    requires Leftover(t, actions, final)
    ensures Catching(map[], t, actions, final, map[])
  {
    ExtractWellFormed(map[], actions);
  }

  /** Stopping inside an action leaves kinds that the state before or the state after it has. */
  lemma TornKinds(s: Tree, a: Action, rest: seq<Action>, t': Tree, final: Tree)
    requires Torn(s, a, t') && Leftover(s, [a] + rest, final)
    requires Aborts(s, a) || Leftover(Apply(s, a), rest, final)
    ensures Leftover(t', [a] + rest, final)
  {
    var all := [a] + rest;
    assert all[1..] == rest;
    forall q | q in t' && !AnyHits(all, q) ensures q in final && SameKind(t'[q], final[q]) {
      FewerHits(all, 1, q);
      assert At(t', q) == Present(t'[q]);
    }
  }

  lemma CutOffLeavesLeftover(t: Tree, actions: seq<Action>, final: Tree, t': Tree)
    requires Extract(map[], actions) == Extraction(true, final)
    requires Leftover(t, actions, final)
    requires CutOff(t, actions, t')
    ensures Leftover(t', actions, final)
  {
    var k: nat :| k <= |actions| && CutOffAt(t, actions, k, t');
    var past, rest := actions[..k], actions[k..];
    assert past + rest == actions;
    StartsCatching(t, actions, final);
    CatchingAfter(map[], t, past, rest, final, map[]);
    var c, s := Extract(map[], past).tree, Extract(t, past).tree;
    if k < |actions| && t' != s {
      assert rest == [actions[k]] + rest[1..];
      if !Aborts(s, actions[k]) { CatchingStep(c, s, rest, final, map[]); }
      TornKinds(s, actions[k], rest[1..], t', final);
    }
    forall q | q in t' && !AnyHits(actions, q) ensures q in final && SameKind(t'[q], final[q]) {
      FewerHits(actions, k, q);
    }
  }

  /** Any number of cut-off extractions into one directory, oldest first. */
  ghost predicate Attempts(actions: seq<Action>, states: seq<Tree>) {
    && states != []
    && states[0] == map[]
    && forall i :: 0 < i < |states| ==> CutOff(states[i - 1], actions, states[i])
  }

  lemma {:induction false} AttemptsLeaveLeftover(actions: seq<Action>, states: seq<Tree>, final: Tree)
    requires Extract(map[], actions) == Extraction(true, final)
    requires Attempts(actions, states)
    ensures Leftover(states[|states| - 1], actions, final)
    decreases |states|
  {
    var n := |states| - 1;
    if n > 0 {
      AttemptsLeaveLeftover(actions, states[..n], final);
      CutOffLeavesLeftover(states[n - 1], actions, final, states[n]);
    }
  }

  lemma LeftoverRepaired(t: Tree, actions: seq<Action>, final: Tree)
    requires Extract(map[], actions) == Extraction(true, final)
    requires Leftover(t, actions, final)
    requires Extract(t, actions).done
    ensures Extract(t, actions).tree == final
  {
    assert actions + [] == actions;
    StartsCatching(t, actions, final);
    CatchingAfter(map[], t, actions, [], final, map[]);
    TreeExtensionality(Extract(t, actions).tree, final);
  }

  lemma CutOffLater(t: Tree, actions: seq<Action>, t': Tree)
    requires actions != [] && !Aborts(t, actions[0])
    requires CutOff(Apply(t, actions[0]), actions[1..], t')
    ensures CutOff(t, actions, t')
  {
    var k: nat :| k <= |actions| - 1 && CutOffAt(Apply(t, actions[0]), actions[1..], k, t');
    assert actions[..k + 1][0] == actions[0] && actions[..k + 1][1..] == actions[1..][..k];
    assert CutOffAt(t, actions, k + 1, t');
  }

  /** When no member is refused, errors from outside do nothing worse than cut the extraction off. */
  lemma {:induction false} UnrefusedOrCutOff(t: Tree, actions: seq<Action>, errors: Errors)
    requires Possible(t, actions, errors) && NoneRefused(actions, errors)
    ensures var r := ExtractUnder(t, actions, errors);
            r == Extract(t, actions) || (!r.done && CutOff(t, actions, r.tree))
    decreases |actions|
  {
    if actions != [] {
      match FirstError(errors)
      case None =>
        if !Aborts(t, actions[0]) {
          UnrefusedOrCutOff(Apply(t, actions[0]), actions[1..], LaterErrors(errors));
          var r := ExtractUnder(t, actions, errors);
          if r != Extract(t, actions) { CutOffLater(t, actions, r.tree); }
        }
      case Some(left) => assert actions[..0] == [] && CutOffAt(t, actions, 0, left);
    }
  }

  /** After any number of interrupted extractions, wherever each was cut off, the next extraction that
  completes without refusing a member leaves exactly the tree of one clean extraction. */
  lemma RestartSafety(actions: seq<Action>, states: seq<Tree>, errors: Errors)
    requires Extract(map[], actions).done
    requires Attempts(actions, states)
    requires Possible(states[|states| - 1], actions, errors) && NoneRefused(actions, errors)
    requires ExtractUnder(states[|states| - 1], actions, errors).done
    ensures ExtractUnder(states[|states| - 1], actions, errors).tree == Extract(map[], actions).tree
  {
    var final := Extract(map[], actions).tree;
    AttemptsLeaveLeftover(actions, states, final);
    UnrefusedOrCutOff(states[|states| - 1], actions, errors);
    LeftoverRepaired(states[|states| - 1], actions, final);
  }

  /** If this extraction completes, it leaves the clean tree. */
  ghost predicate Repairs(actions: seq<Action>, states: seq<Tree>, errors: Errors)
    requires states != []
  {
    ExtractUnder(states[|states| - 1], actions, errors).done ==>
      ExtractUnder(states[|states| - 1], actions, errors).tree == Extract(map[], actions).tree
  }

  /** Whatever was interrupted before, an extraction that completes leaves the clean tree. */
  ghost predicate AlwaysRepaired(refusals: bool) {
    forall actions, states, errors :: Extract(map[], actions).done && Attempts(actions, states)
      && Possible(states[|states| - 1], actions, errors) && (refusals || NoneRefused(actions, errors))
      ==> Repairs(actions, states, errors)
  }

  /** A refused member is passed over: the extraction completes without its file. */
  lemma RefusedMemberIsMissing(name: Name, c: Content)
    ensures var actions, errors := [Put([name], File(c))], [Some(map[])];
            && Possible(map[], actions, errors)
            && ExtractUnder(map[], actions, errors) == Extraction(true, map[])
            && Extract(map[], actions) == Extraction(true, map[[name] := File(c)])
  {
    var actions, errors: Errors := [Put([name], File(c))], [Some(map[])];
    assert Ancestors([name]) == {};
    assert Create(map[], [name], File(c)) == map[[name] := File(c)];
    assert actions[1..] == [] && errors[1..] == [];
  }

  /** The clean tree is restored in every case if and only if no member is refused by an error from outside. */
  lemma RestartExactly(refusals: bool)
    ensures AlwaysRepaired(refusals) <==> !refusals
  {
    if refusals {
      RefusedMemberIsMissing("f", []);
      var actions, errors: Errors := [Put(["f"], File([]))], [Some(map[])];
      var states: seq<Tree> := [map[]];
      assert ["f"] in Extract(map[], actions).tree;
      assert Attempts(actions, states) && !Repairs(actions, states, errors);
    } else {
      forall actions, states, errors | Extract(map[], actions).done && Attempts(actions, states)
          && Possible(states[|states| - 1], actions, errors) && NoneRefused(actions, errors)
        ensures Repairs(actions, states, errors)
      {
        if ExtractUnder(states[|states| - 1], actions, errors).done {
          RestartSafety(actions, states, errors);
        }
      }
    }
  }

  /** A repeated extraction need not complete: an opaque marker for a name the layer then stores as a
  file is ignored by a clean extraction and fails every later one. */
  lemma RestartMayAbortForever(name: Name, c: Content)
    ensures var actions := [Clear([name]), Put([name], File(c))];
            && Extract(map[], actions) == Extraction(true, map[[name] := File(c)])
            && CutOff(map[], actions, map[[name] := File(c)])
            && Extract(map[[name] := File(c)], actions) == Extraction(false, map[[name] := File(c)])
  {
    var actions := [Clear([name]), Put([name], File(c))];
    var t: Tree := map[];
    assert Ancestors([name]) == {};
    assert Create(t, [name], File(c)) == map[[name] := File(c)];
    assert ClearDirectory(t, [name]) == t;
    assert actions[1..] == [Put([name], File(c))] && actions[1..][1..] == [];
    assert Extract(t, actions) == Extract(t, actions[1..]) == Extraction(true, map[[name] := File(c)]);
    assert actions[..2] == actions;
    assert CutOffAt(t, actions, 2, map[[name] := File(c)]);
  }

  /** No opaque marker names a path that the same layer stores as a regular file. */
  ghost predicate OpaqueNamesNoFile(actions: seq<Action>) {
    forall i, j :: && 0 <= i < |actions| && actions[i].Clear?
                   && 0 <= j < |actions| && actions[j].Put? && actions[j].node.File?
                   ==> actions[i].dir != actions[j].path
  }

  ghost predicate NoFileAt(t: Tree, all: seq<Action>) {
    forall i :: 0 <= i < |all| && all[i].Clear? ==> !IsFile(t, all[i].dir)
  }

  lemma {:induction false} NothingAborts(t: Tree, past: seq<Action>, rest: seq<Action>)
    requires OpaqueNamesNoFile(past + rest)
    requires NoFileAt(t, past + rest)
    ensures Extract(t, rest).done
    ensures NoFileAt(Extract(t, rest).tree, past + rest)
    decreases |rest|
  {
    if rest != [] {
      var all := past + rest;
      assert all[|past|] == rest[0];
      assert past + [rest[0]] + rest[1..] == all;
      NothingAborts(Apply(t, rest[0]), past + [rest[0]], rest[1..]);
    }
  }

  lemma CutOffPutsNoFile(t: Tree, actions: seq<Action>, t': Tree)
    requires OpaqueNamesNoFile(actions) && NoFileAt(t, actions) && CutOff(t, actions, t')
    ensures NoFileAt(t', actions)
  {
    var k: nat :| k <= |actions| && CutOffAt(t, actions, k, t');
    assert forall n: nat :: n <= |actions| ==> [] + actions[..n] == actions[..n];
    PrefixPutsNoFile(t, actions, k);
    if k < |actions| && t' != Extract(t, actions[..k]).tree {
      forall i | 0 <= i < |actions| && actions[i].Clear? ensures !IsFile(t', actions[i].dir) {
        var s := Extract(t, actions[..k]).tree;
        assert !IsFile(s, actions[i].dir);
        assert At(t', actions[i].dir) == At(s, actions[i].dir)
               || At(t', actions[i].dir) == At(Apply(s, actions[k]), actions[i].dir);
      }
    }
  }

  lemma {:induction false} PrefixPutsNoFile(t: Tree, actions: seq<Action>, k: nat)
    requires k <= |actions|
    requires OpaqueNamesNoFile(actions) && NoFileAt(t, actions)
    ensures NoFileAt(Extract(t, actions[..k]).tree, actions)
  {
    if k > 0 {
      PrefixPutsNoFile(t, actions, k - 1);
      assert actions[..k] == actions[..k - 1] + [actions[k - 1]];
      ExtractConcat(t, actions[..k - 1], [actions[k - 1]]);
      var before := Extract(t, actions[..k - 1]);
      if before.done {
        assert Extract(before.tree, [actions[k - 1]]).tree ==
               if Aborts(before.tree, actions[k - 1]) then before.tree
               else Apply(before.tree, actions[k - 1]) by {
          assert [actions[k - 1]][1..] == [];
        }
      }
    }
  }

  lemma {:induction false} AttemptsPutNoFile(actions: seq<Action>, states: seq<Tree>)
    requires OpaqueNamesNoFile(actions) && Attempts(actions, states)
    ensures NoFileAt(states[|states| - 1], actions)
    decreases |states|
  {
    var n := |states| - 1;
    if n > 0 {
      AttemptsPutNoFile(actions, states[..n]);
      CutOffPutsNoFile(states[n - 1], actions, states[n]);
    }
  }

  /** A layer whose opaque markers name none of its own files is always repaired: the extraction after
  any number of interruptions completes and leaves the clean tree. */
  lemma RestartAlwaysRepairs(actions: seq<Action>, states: seq<Tree>)
    requires OpaqueNamesNoFile(actions)
    requires Attempts(actions, states)
    ensures Extract(states[|states| - 1], actions) == Extract(map[], actions)
    ensures Extract(map[], actions).done
  {
    assert [] + actions == actions;
    NothingAborts(map[], [], actions);
    AttemptsPutNoFile(actions, states);
    NothingAborts(states[|states| - 1], [], actions);
    UnderNoErrors(states[|states| - 1], actions);
    RestartSafety(actions, states, []);
  }

  /** The extraction after any number of interruptions completes, if nothing refuses it. */
  ghost predicate AlwaysCompletes(actions: seq<Action>) {
    forall states :: Attempts(actions, states) ==> Extract(states[|states| - 1], actions).done
  }

  /** No action deletes a directory that an opaque marker names. */
  ghost predicate OpaqueDirectoriesStay(actions: seq<Action>) {
    forall i :: 0 <= i < |actions| && actions[i].Clear? ==> !AnyHits(actions, actions[i].dir)
  }

  ghost predicate MarksNoFile(actions: seq<Action>, final: Tree) {
    forall i :: 0 <= i < |actions| && actions[i].Clear? ==> !IsFile(final, actions[i].dir)
  }

  lemma {:induction false} CatchesUp(clean: Tree, again: Tree, rest: seq<Action>, final: Tree)
    requires Catching(clean, again, rest, final, map[])
    requires OpaqueDirectoriesStay(rest) && MarksNoFile(rest, final)
    ensures Extract(again, rest).done
    decreases |rest|
  {
    if rest != [] {
      var tail := rest[1..];
      assert !Aborts(again, rest[0]);
      CatchingStep(clean, again, rest, final, map[]);
      forall i | 0 <= i < |tail| && tail[i].Clear? ensures !AnyHits(tail, tail[i].dir) && !IsFile(final, tail[i].dir) {
        assert tail[i] == rest[i + 1];
        FewerHits(rest, 1, tail[i].dir);
      }
      CatchesUp(Apply(clean, rest[0]), Apply(again, rest[0]), tail, final);
    }
  }

  lemma {:induction false} FileFailsMarker(t: Tree, rest: seq<Action>, i: nat)
    requires i < |rest| && rest[i].Clear? && IsFile(t, rest[i].dir) && !AnyHits(rest, rest[i].dir)
    ensures !Extract(t, rest).done
    decreases |rest|
  {
    if !Aborts(t, rest[0]) {
      var d := rest[i].dir;
      assert !Hits(rest[0], d);
      assert rest[1..][i - 1] == rest[i];
      FewerHits(rest, 1, d);
      assert IsFile(Apply(t, rest[0]), d);
      FileFailsMarker(Apply(t, rest[0]), rest[1..], i - 1);
    }
  }

  /** For layers that do not delete the directories their opaque markers name: the extraction after any
  interruptions completes if and only if the clean tree has no file under such a name. */
  lemma RestartCompletesExactly(actions: seq<Action>)
    requires Extract(map[], actions).done && OpaqueDirectoriesStay(actions)
    ensures AlwaysCompletes(actions) <==> MarksNoFile(actions, Extract(map[], actions).tree)
  {
    var final := Extract(map[], actions).tree;
    if MarksNoFile(actions, final) {
      forall states | Attempts(actions, states) ensures Extract(states[|states| - 1], actions).done {
        AttemptsLeaveLeftover(actions, states, final);
        StartsCatching(states[|states| - 1], actions, final);
        CatchesUp(map[], states[|states| - 1], actions, final);
      }
    } else {
      var i :| 0 <= i < |actions| && actions[i].Clear? && IsFile(final, actions[i].dir);
      assert actions[..|actions|] == actions;
      assert CutOffAt(map[], actions, |actions|, final);
      var states := [map[], final];
      assert Attempts(actions, states) && states[|states| - 1] == final;
      FileFailsMarker(final, actions, i);
    }
  }
}
