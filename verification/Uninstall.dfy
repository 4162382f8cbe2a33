/**
 Removing every Variant of a model: each is checked for a download in flight, then each is deleted,
 which checks again. Downloads may start and end between any two of these looks.
 */
module Uninstall {
  import opened Prelude
  import opened VariantKeys

  datatype Error = ModelNotFound | DownloadInProgress | NotInstalled | Io

  /** The Variants with a download in flight, at each look of the call in turn. */
  type Looks = nat -> set<VariantKey>

  /** What is left installed, and the answer. */
  datatype Left = Left(installed: set<VariantKey>, result: Result<bool, Error>)

  /** A Variant refused at its check, the `i`-th look being at the `i`-th target. */
  predicate CheckRefuses(targets: seq<VariantKey>, looks: Looks) {
    exists i :: 0 <= i < |targets| && targets[i] in looks(i)
  }

  /** Delete the targets from the `i`-th on, one by one until one is refused or fails. */
  function DeleteFrom(installed: set<VariantKey>, targets: seq<VariantKey>, i: nat, looks: Looks, failing: set<VariantKey>): Left
    requires i <= |targets|
    decreases |targets| - i
  {
    if i == |targets| then Left(installed, Ok(true))
    else if targets[i] in looks(|targets| + i) then Left(installed, Err(DownloadInProgress))
    else if targets[i] !in installed then Left(installed, Err(NotInstalled))
    else if targets[i] in failing then Left(installed, Err(Io))
    else DeleteFrom(installed - {targets[i]}, targets, i + 1, looks, failing)
  }

  function AfterUninstall(installed: set<VariantKey>, targets: seq<VariantKey>, looks: Looks, failing: set<VariantKey>): Left {
    if targets == [] then Left(installed, Err(ModelNotFound))
    else if CheckRefuses(targets, looks) then Left(installed, Err(DownloadInProgress))
    else DeleteFrom(installed, targets, 0, looks, failing)
  }

  /** The targets before the `n`-th. */
  function Prefix(targets: seq<VariantKey>, n: nat): set<VariantKey>
    requires n <= |targets|
  {
    set t | t in targets[..n]
  }

  /**
   However a deletion ends, what is gone is some number of targets from the front, none of them refused,
   missing or failing; all of them on success, and any other answer is about the next one.
   */
  lemma {:induction false} DeletesPrefix(installed: set<VariantKey>, targets: seq<VariantKey>, i: nat, looks: Looks, failing: set<VariantKey>) returns (n: nat)
    requires i <= |targets|
    ensures i <= n <= |targets|
    ensures forall k :: i <= k < n ==> targets[k] in installed && targets[k] !in failing && targets[k] !in looks(|targets| + k)
    ensures var r := DeleteFrom(installed - Prefix(targets, i), targets, i, looks, failing);
            && r.installed == installed - Prefix(targets, n)
            && (r.result.Ok? <==> n == |targets|)
            && (r.result == Err(DownloadInProgress) <==> n < |targets| && targets[n] in looks(|targets| + n))
            && (r.result == Err(NotInstalled) <==> n < |targets| && targets[n] !in looks(|targets| + n) && targets[n] !in r.installed)
            && (r.result == Err(Io) <==> n < |targets| && targets[n] !in looks(|targets| + n) && targets[n] in r.installed && targets[n] in failing)
    decreases |targets| - i
  {
    n := i;
    if i < |targets| && targets[i] !in looks(|targets| + i) && targets[i] in installed - Prefix(targets, i) && targets[i] !in failing {
      assert targets[..i + 1] == targets[..i] + [targets[i]];
      assert installed - Prefix(targets, i) - {targets[i]} == installed - Prefix(targets, i + 1);
      n := DeletesPrefix(installed, targets, i + 1, looks, failing);
    }
  }

  /**
   A refused removal of a whole model leaves all its Variants installed exactly when the refusal comes
   from a check, or from the first deletion; a download that starts on a later Variant after its check
   has others gone already.
   */
  lemma RefusalKeepsAll(installed: set<VariantKey>, targets: seq<VariantKey>, looks: Looks, failing: set<VariantKey>)
    requires targets != [] && forall i :: 0 <= i < |targets| ==> targets[i] in installed
    requires AfterUninstall(installed, targets, looks, failing).result == Err(DownloadInProgress)
    ensures AfterUninstall(installed, targets, looks, failing).installed == installed <==>
            CheckRefuses(targets, looks) || targets[0] in looks(|targets|)
  {
    if !CheckRefuses(targets, looks) {
      assert installed - Prefix(targets, 0) == installed;
      var n := DeletesPrefix(installed, targets, 0, looks, failing);
      if n > 0 {
        assert targets[0] in targets[..n];
        assert targets[0] in installed && targets[0] !in installed - Prefix(targets, n);
      }
    }
  }

  /** A download of `late` that starts after both checks and before the second deletion. */
  function StartsLate(late: VariantKey): Looks { look => if look < 3 then {} else {late} }

  /** A refused removal can have lost a Variant already: any model with two of them has such a schedule of downloads. */
  lemma RefusalCanLoseOne(installed: set<VariantKey>, first: VariantKey, late: VariantKey)
    requires first in installed && late in installed && first != late
    ensures AfterUninstall(installed, [first, late], StartsLate(late), {}) == Left(installed - {first}, Err(DownloadInProgress))
  {
    var targets, looks := [first, late], StartsLate(late);
    assert !CheckRefuses(targets, looks);
    assert DeleteFrom(installed - {first}, targets, 1, looks, {}) == Left(installed - {first}, Err(DownloadInProgress));
  }

  /** If no target's download starts between its check and its deletion, a refusal leaves all of them installed, and otherwise all go unless a file fails. */
  lemma SteadyIsAllOrNothing(installed: set<VariantKey>, targets: seq<VariantKey>, looks: Looks)
    requires targets != [] && forall i :: 0 <= i < |targets| ==> targets[i] in installed
    requires forall i, j :: 0 <= i < j < |targets| ==> targets[i] != targets[j]
    requires forall i :: 0 <= i < |targets| && targets[i] in looks(|targets| + i) ==> targets[i] in looks(i)
    ensures var r := AfterUninstall(installed, targets, looks, {});
            if CheckRefuses(targets, looks) then r == Left(installed, Err(DownloadInProgress))
            else r == Left(installed - Prefix(targets, |targets|), Ok(true))
  {
    if !CheckRefuses(targets, looks) {
      assert installed - Prefix(targets, 0) == installed;
      AllGo(installed, targets, 0, looks);
    }
  }

  lemma {:induction false} AllGo(installed: set<VariantKey>, targets: seq<VariantKey>, i: nat, looks: Looks)
    requires i <= |targets| && forall k :: 0 <= k < |targets| ==> targets[k] in installed
    requires forall k, j :: 0 <= k < j < |targets| ==> targets[k] != targets[j]
    requires forall k :: 0 <= k < |targets| ==> targets[k] !in looks(|targets| + k)
    ensures DeleteFrom(installed - Prefix(targets, i), targets, i, looks, {}) == Left(installed - Prefix(targets, |targets|), Ok(true))
    decreases |targets| - i
  {
    if i < |targets| {
      assert targets[i] !in targets[..i];
      assert targets[..i + 1] == targets[..i] + [targets[i]];
      assert installed - Prefix(targets, i) - {targets[i]} == installed - Prefix(targets, i + 1);
      AllGo(installed, targets, i + 1, looks);
    }
  }

  class ModelInstaller {
    var installed: set<VariantKey>

    /** Delete one Variant's file. */
    method DeleteVariant(key: VariantKey, busy: set<VariantKey>, failing: set<VariantKey>) returns (r: Result<bool, Error>)
      modifies this
      ensures r == if key in busy then Err(DownloadInProgress)
                   else if key !in old(installed) then Err(NotInstalled)
                   else if key in failing then Err(Io) else Ok(true)
      ensures installed == if r.Ok? then old(installed) - {key} else old(installed)
    {
      if key in busy {
        return Err(DownloadInProgress);
      }
      if key !in installed {
        return Err(NotInstalled);
      }
      if key in failing {
        return Err(Io);
      }
      installed := installed - {key};
      r := Ok(true);
    }

    /** Remove a whole model, whose installed Variants are the targets. */
    method UninstallModel(targets: seq<VariantKey>, looks: Looks, failing: set<VariantKey>) returns (r: Result<bool, Error>)
      modifies this
      ensures Left(installed, r) == AfterUninstall(old(installed), targets, looks, failing)
      ensures r == Err(ModelNotFound) <==> targets == []
      ensures targets == [] || (exists i :: 0 <= i < |targets| && targets[i] in looks(i)) ==> installed == old(installed) && r.Err?
      ensures (exists i :: 0 <= i < |targets| && targets[i] in looks(i)) ==> r == Err(DownloadInProgress)
    {
      if targets == [] {
        return Err(ModelNotFound);
      }
      var i := 0;
      while i < |targets|
        invariant 0 <= i <= |targets| && forall k :: 0 <= k < i ==> targets[k] !in looks(k)
      {
        if targets[i] in looks(i) {
          return Err(DownloadInProgress);
        }
        i := i + 1;
      }
      i := 0;
      while i < |targets|
        invariant 0 <= i <= |targets|
        invariant !CheckRefuses(targets, looks)
        invariant DeleteFrom(old(installed), targets, 0, looks, failing) == DeleteFrom(installed, targets, i, looks, failing)
      {
        var one := DeleteVariant(targets[i], looks(|targets| + i), failing);
        if one.Err? {
          return one;
        }
        i := i + 1;
      }
      r := Ok(true);
    }
  }
}
