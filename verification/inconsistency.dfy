/** `OneToOneInconsistencyValidator` (`libs/inconsistency.py`): checks a
    one-to-one relation from both ends.  A forward record must point at a
    related record, a reverse record must be pointed at; every consistent
    pair, seen from either end, is then checked once by the subclass. */
module Inconsistency {
  import opened Errors
  import opened Seqs
  import opened Actions

  /** A forward record and the related record its key points at. */
  datatype Forward = Forward(id: int, related: Option<int>)

  /** A reverse record and the forward record pointing at it, when one does
      (`hasattr` on the reverse accessor). */
  datatype Reverse = Reverse(id: int, back: Option<int>)

  /** The record an inconsistency is about. */
  datatype Instance = ForwardInstance(id: int) | ReverseInstance(id: int)

  datatype Issue = Issue(instance: Instance, reason: string, fixActions: seq<Action>)

  /** A consistent pair: the forward record's id, then the reverse record's. */
  type Pair = (int, int)

  function ForwardReason(forwardName: string, reverseName: string): string
  {
    forwardName + "に対応する" + reverseName + "レコードが存在しません"
  }

  predicate Dangling(f: Forward)
  {
    f.related.None?
  }

  /** The forward issue of one record. */
  function ForwardIssue(f: Forward, forwardName: string, reverseName: string, fix: int -> Action): Issue
  {
    Issue(ForwardInstance(f.id), ForwardReason(forwardName, reverseName), [fix(f.id)])
  }

  predicate Orphan(r: Reverse)
  {
    r.back.None?
  }

  function ReverseIssue(r: Reverse, forwardName: string, reverseName: string, fix: int -> Action): Issue
  {
    Issue(ReverseInstance(r.id), ForwardReason(reverseName, forwardName), [fix(r.id)])
  }

  /** `validate_forward_inconsistency`: an issue exactly when the record's
      related key is empty (`is_forward_consistent` fails). */
  function ValidateForwardInconsistency(f: Forward, forwardName: string, reverseName: string, fix: int -> Action): (r: Option<Issue>)
    ensures r.Some? <==> Dangling(f)
    ensures r.Some? ==> r.value.instance == ForwardInstance(f.id) && r.value.fixActions == [fix(f.id)]
                        && r.value.reason == forwardName + "に対応する" + reverseName + "レコードが存在しません"
  {
    if f.related.None? then Some(ForwardIssue(f, forwardName, reverseName, fix)) else None
  }

  /** `validate_reverse_consistent`: an issue exactly when no forward record
      points at the record (`is_reverse_consistent` fails); the reason names
      the models the other way round. */
  function ValidateReverseConsistent(r: Reverse, forwardName: string, reverseName: string, fix: int -> Action): (o: Option<Issue>)
    ensures o.Some? <==> Orphan(r)
    ensures o.Some? ==> o.value.instance == ReverseInstance(r.id) && o.value.fixActions == [fix(r.id)]
                        && o.value.reason == reverseName + "に対応する" + forwardName + "レコードが存在しません"
  {
    if r.back.None? then Some(ReverseIssue(r, forwardName, reverseName, fix)) else None
  }

  // ---------------------------------------------------------------------
  // What each phase contributes

  /** The forward phase's inconsistencies, in record order. */
  function ForwardIssues(fs: seq<Forward>, forwardName: string, reverseName: string, fix: int -> Action): seq<Issue>
  {
    if fs == [] then []
    else
      var last := fs[|fs| - 1];
      ForwardIssues(fs[..|fs| - 1], forwardName, reverseName, fix)
        + (if last.related.None? then [ForwardIssue(last, forwardName, reverseName, fix)] else [])
  }

  /** The forward phase's consistent pairs. */
  function ForwardPairs(fs: seq<Forward>): set<Pair>
  {
    if fs == [] then {}
    else
      var last := fs[|fs| - 1];
      ForwardPairs(fs[..|fs| - 1]) + (if last.related.Some? then {(last.id, last.related.value)} else {})
  }

  /** The reverse phase's inconsistencies; the reason names the models the
      other way round. */
  function ReverseIssues(rs: seq<Reverse>, forwardName: string, reverseName: string, fix: int -> Action): seq<Issue>
  {
    if rs == [] then []
    else
      var last := rs[|rs| - 1];
      ReverseIssues(rs[..|rs| - 1], forwardName, reverseName, fix)
        + (if last.back.None? then [ReverseIssue(last, forwardName, reverseName, fix)] else [])
  }

  function ReversePairs(rs: seq<Reverse>): set<Pair>
  {
    if rs == [] then {}
    else
      var last := rs[|rs| - 1];
      ReversePairs(rs[..|rs| - 1]) + (if last.back.Some? then {(last.back.value, last.id)} else {})
  }

  /** The inconsistencies `check_instance` reports for pairs in the order
      they are checked. */
  function CheckIssues(pairs: seq<Pair>, check: (int, int) -> Option<Issue>): seq<Issue>
  {
    if pairs == [] then []
    else
      var last := pairs[|pairs| - 1];
      CheckIssues(pairs[..|pairs| - 1], check) + (if check(last.0, last.1).Some? then [check(last.0, last.1).value] else [])
  }

  /** One more forward record adds its issue or its pair. */
  lemma ForwardStep(fs: seq<Forward>, i: int, forwardName: string, reverseName: string, fix: int -> Action)
    requires 0 <= i < |fs|
    ensures ForwardIssues(fs[..i + 1], forwardName, reverseName, fix)
            == ForwardIssues(fs[..i], forwardName, reverseName, fix)
               + (if fs[i].related.None? then [ForwardIssue(fs[i], forwardName, reverseName, fix)] else [])
    ensures ForwardPairs(fs[..i + 1])
            == ForwardPairs(fs[..i]) + (if fs[i].related.Some? then {(fs[i].id, fs[i].related.value)} else {})
  {
    assert fs[..i + 1][..i] == fs[..i];
  }

  /** One more reverse record adds its issue or its pair. */
  lemma ReverseStep(rs: seq<Reverse>, i: int, forwardName: string, reverseName: string, fix: int -> Action)
    requires 0 <= i < |rs|
    ensures ReverseIssues(rs[..i + 1], forwardName, reverseName, fix)
            == ReverseIssues(rs[..i], forwardName, reverseName, fix)
               + (if rs[i].back.None? then [ReverseIssue(rs[i], forwardName, reverseName, fix)] else [])
    ensures ReversePairs(rs[..i + 1])
            == ReversePairs(rs[..i]) + (if rs[i].back.Some? then {(rs[i].back.value, rs[i].id)} else {})
  {
    assert rs[..i + 1][..i] == rs[..i];
  }

  lemma CheckIssuesSnoc(pairs: seq<Pair>, p: Pair, check: (int, int) -> Option<Issue>)
    ensures CheckIssues(pairs + [p], check)
            == CheckIssues(pairs, check) + (if check(p.0, p.1).Some? then [check(p.0, p.1).value] else [])
  {
    assert (pairs + [p])[..|pairs|] == pairs;
  }

  // ---------------------------------------------------------------------
  // The validator

  class Validator {
    const forwardName: string      // verbose name of the forward model
    const reverseName: string      // verbose name of the reverse model
    const forwards: seq<Forward>   // forward_manager.all()
    const reverses: seq<Reverse>   // reverse_manager.all()
    const forwardFix: int -> Action                   // get_forward_fix_action
    const reverseFix: int -> Action                   // get_reverse_fix_action
    const check: (int, int) -> Option<Issue>          // check_instance

    constructor (forwardName: string, reverseName: string, forwards: seq<Forward>, reverses: seq<Reverse>,
                 forwardFix: int -> Action, reverseFix: int -> Action, check: (int, int) -> Option<Issue>)
      ensures this.forwardName == forwardName && this.reverseName == reverseName
      ensures this.forwards == forwards && this.reverses == reverses
      ensures this.forwardFix == forwardFix && this.reverseFix == reverseFix && this.check == check
    {
      this.forwardName := forwardName;
      this.reverseName := reverseName;
      this.forwards := forwards;
      this.reverses := reverses;
      this.forwardFix := forwardFix;
      this.reverseFix := reverseFix;
      this.check := check;
    }

    /** `validate()`: the forward issues, then the reverse issues, then what
        `check_instance` reports for each distinct consistent pair.  The
        pairs come out of a set, so `checked`, the order they were checked
        in, is not fixed; each pair is checked exactly once. */
    method Validate() returns (r: seq<Issue>, checked: seq<Pair>)
      ensures r == ForwardIssues(forwards, forwardName, reverseName, forwardFix)
                   + ReverseIssues(reverses, forwardName, reverseName, reverseFix)
                   + CheckIssues(checked, check)
      ensures Distinct(checked)
      ensures forall p :: p in checked <==> p in ForwardPairs(forwards) + ReversePairs(reverses)
    {
      var issues: seq<Issue> := [];
      var pairSet: set<Pair> := {};
      for i := 0 to |forwards|
        invariant issues == ForwardIssues(forwards[..i], forwardName, reverseName, forwardFix)
        invariant pairSet == ForwardPairs(forwards[..i])
      {
        ForwardStep(forwards, i, forwardName, reverseName, forwardFix);
        var instance := forwards[i];
        var inconsistency := ValidateForwardInconsistency(instance, forwardName, reverseName, forwardFix);
        if inconsistency.Some? {
          issues := issues + [inconsistency.value];
        } else {
          pairSet := pairSet + {(instance.id, instance.related.value)};
        }
      }
      assert forwards[..|forwards|] == forwards;
      ghost var forwardIssues, forwardPairs := issues, pairSet;
      for i := 0 to |reverses|
        invariant issues == forwardIssues + ReverseIssues(reverses[..i], forwardName, reverseName, reverseFix)
        invariant pairSet == forwardPairs + ReversePairs(reverses[..i])
      {
        ReverseStep(reverses, i, forwardName, reverseName, reverseFix);
        var instance := reverses[i];
        var inconsistency := ValidateReverseConsistent(instance, forwardName, reverseName, reverseFix);
        if inconsistency.Some? {
          issues := issues + [inconsistency.value];
        } else {
          pairSet := pairSet + {(instance.back.value, instance.id)};
        }
      }
      assert reverses[..|reverses|] == reverses;
      var found;
      found, checked := CheckPairs(pairSet);
      r := issues + found;
    }

    /** The last loop of `validate()`: `check_instance` on every pair of the
        set, each once, in an order the model does not fix. */
    method CheckPairs(pairSet: set<Pair>) returns (found: seq<Issue>, checked: seq<Pair>)
      ensures found == CheckIssues(checked, check)
      ensures Distinct(checked)
      ensures forall p :: p in checked <==> p in pairSet
    {
      found := [];
      checked := [];
      var rest := pairSet;
      while rest != {}
        invariant rest <= pairSet
        invariant forall p :: p in checked <==> p in pairSet && p !in rest
        invariant Distinct(checked)
        invariant found == CheckIssues(checked, check)
        decreases |rest|
      {
        var p :| p in rest;
        var inconsistency := check(p.0, p.1);
        CheckIssuesSnoc(checked, p, check);
        if inconsistency.Some? {
          found := found + [inconsistency.value];
        }
        checked := checked + [p];
        rest := rest - {p};
      }
    }
  }

  // ---------------------------------------------------------------------
  // Properties of the phases

  /** The forward phase reports exactly the records without a related
      record, in order, one issue each with a single fix action. */
  lemma {:induction false} ForwardIssuesAreDangling(fs: seq<Forward>, forwardName: string, reverseName: string, fix: int -> Action)
    ensures var issues := ForwardIssues(fs, forwardName, reverseName, fix);
      var dangling := Filter(fs, (f: Forward) => Dangling(f));
      && |issues| == |dangling|
      && forall i :: 0 <= i < |issues| ==> issues[i] == ForwardIssue(dangling[i], forwardName, reverseName, fix)
  {
    if fs != [] {
      var init := fs[..|fs| - 1];
      var last := fs[|fs| - 1];
      var p := (f: Forward) => Dangling(f);
      ForwardIssuesAreDangling(init, forwardName, reverseName, fix);
      assert fs == init + [last];
      FilterAppend(init, [last], p);
      assert Filter([last], p) == (if Dangling(last) then [last] else []) + Filter([last][1..], p);
      assert [last][1..] == [];
    }
  }

  /** The reverse phase reports exactly the records nothing points at, in
      order, one issue each with a single fix action. */
  lemma {:induction false} ReverseIssuesAreOrphans(rs: seq<Reverse>, forwardName: string, reverseName: string, fix: int -> Action)
    ensures var issues := ReverseIssues(rs, forwardName, reverseName, fix);
      var orphans := Filter(rs, (r: Reverse) => Orphan(r));
      && |issues| == |orphans|
      && forall i :: 0 <= i < |issues| ==> issues[i] == ReverseIssue(orphans[i], forwardName, reverseName, fix)
  {
    if rs != [] {
      var init := rs[..|rs| - 1];
      var last := rs[|rs| - 1];
      var p := (r: Reverse) => Orphan(r);
      ReverseIssuesAreOrphans(init, forwardName, reverseName, fix);
      assert rs == init + [last];
      FilterAppend(init, [last], p);
      assert Filter([last], p) == (if Orphan(last) then [last] else []) + Filter([last][1..], p);
      assert [last][1..] == [];
    }
  }

  /** A pair comes from the forward phase exactly when some forward record
      points at that related record. */
  lemma {:induction false} ForwardPairsMembers(fs: seq<Forward>, p: Pair)
    ensures p in ForwardPairs(fs) <==> exists i :: 0 <= i < |fs| && fs[i].id == p.0 && fs[i].related == Some(p.1)
  {
    if fs != [] {
      var init := fs[..|fs| - 1];
      ForwardPairsMembers(init, p);
      assert forall i :: 0 <= i < |init| ==> init[i] == fs[i];
      if exists i :: 0 <= i < |fs| && fs[i].id == p.0 && fs[i].related == Some(p.1) {
        var i :| 0 <= i < |fs| && fs[i].id == p.0 && fs[i].related == Some(p.1);
        if i < |init| {
          assert init[i].id == p.0 && init[i].related == Some(p.1);
        }
      }
    }
  }

  /** A pair comes from the reverse phase exactly when some reverse record
      is pointed at by that forward record. */
  lemma {:induction false} ReversePairsMembers(rs: seq<Reverse>, p: Pair)
    ensures p in ReversePairs(rs) <==> exists i :: 0 <= i < |rs| && rs[i].id == p.1 && rs[i].back == Some(p.0)
  {
    if rs != [] {
      var init := rs[..|rs| - 1];
      ReversePairsMembers(init, p);
      assert forall i :: 0 <= i < |init| ==> init[i] == rs[i];
      if exists i :: 0 <= i < |rs| && rs[i].id == p.1 && rs[i].back == Some(p.0) {
        var i :| 0 <= i < |rs| && rs[i].id == p.1 && rs[i].back == Some(p.0);
        if i < |init| {
          assert init[i].id == p.1 && init[i].back == Some(p.0);
        }
      }
    }
  }

  /** A relation that is consistent from both ends is checked exactly once. */
  lemma CheckedOnce(fs: seq<Forward>, rs: seq<Reverse>, checked: seq<Pair>, i: nat, j: nat)
    requires Distinct(checked)
    requires forall p :: p in checked <==> p in ForwardPairs(fs) + ReversePairs(rs)
    requires i < |fs| && j < |rs| && fs[i].related == Some(rs[j].id) && rs[j].back == Some(fs[i].id)
    ensures exists k :: 0 <= k < |checked| && checked[k] == (fs[i].id, rs[j].id)
    ensures forall k, l :: (0 <= k < |checked| && 0 <= l < |checked| && checked[k] == (fs[i].id, rs[j].id)
                            && checked[l] == (fs[i].id, rs[j].id)) ==> k == l
  {
    var p := (fs[i].id, rs[j].id);
    ForwardPairsMembers(fs, p);
    ReversePairsMembers(rs, p);
    assert p in checked;
  }
}
