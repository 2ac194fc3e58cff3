/**
  The two helpers of imaginaire/third_party/flow_net/flownet2/utils/tools.py
  that compute something: `kwargs_from_args`, which picks a class's keyword
  arguments out of the parsed command line, and
  `update_hyperparameter_schedule`, the step-based learning-rate decay.
 */
module FlowNetTools {
  import opened Wrappers

  // ---------------------------------------------------------------------------
  // kwargs_from_args

  /** Python's `sub in s` on strings: `sub` occurs somewhere in `s`. */
  predicate IsSubstring(sub: string, s: string)
    decreases |s|
  {
    |sub| <= |s| && (s[..|sub|] == sub || IsSubstring(sub, s[1..]))
  }

  /** `sub` occurs in `s` starting at position `at`. */
  predicate OccursAt(sub: string, s: string, at: nat)
  {
    at + |sub| <= |s| && s[at..at + |sub|] == sub
  }

  /** An occurrence at a given position makes `sub` a substring. */
  lemma {:induction false} OccurrenceIsSubstring(sub: string, s: string, at: nat)
    requires OccursAt(sub, s, at)
    ensures IsSubstring(sub, s)
  {
    if at > 0 {
      assert s[1..][at - 1..at - 1 + |sub|] == s[at..at + |sub|];
      OccurrenceIsSubstring(sub, s[1..], at - 1);
    }
  }

  /** Conversely, a substring occurs at some position. */
  lemma {:induction false} SubstringHasOccurrence(sub: string, s: string)
    requires IsSubstring(sub, s)
    ensures exists at: nat :: OccursAt(sub, s, at)
  {
    if s[..|sub|] != sub {
      SubstringHasOccurrence(sub, s[1..]);
      var at: nat :| OccursAt(sub, s[1..], at);
      assert s[at + 1..at + 1 + |sub|] == s[1..][at..at + |sub|];
      assert OccursAt(sub, s, at + 1);
    } else {
      assert OccursAt(sub, s, 0);
    }
  }

  /** `IsSubstring` is exactly Python's `in`: an occurrence at some position. */
  lemma SubstringIffOccurs(sub: string, s: string)
    ensures IsSubstring(sub, s) <==> exists at: nat :: OccursAt(sub, s, at)
  {
    if IsSubstring(sub, s) {
      SubstringHasOccurrence(sub, s);
    } else if exists at: nat :: OccursAt(sub, s, at) {
      var at: nat :| OccursAt(sub, s, at);
      OccurrenceIsSubstring(sub, s, at);
    }
  }

  /** The marker `"<cls>_"` that selects a class's arguments. */
  function Marker(cls: string): (m: string)
    ensures |m| == |cls| + 1 && m[..|cls|] == cls && m[|cls|] == '_'
  {
    cls + "_"
  }

  /** The key `"<cls>_class"`, which names the class itself and is never passed on. */
  function ClassKey(cls: string): (k: string)
    ensures k == Marker(cls) + "class"
  {
    cls + "_class"
  }

  /** The comprehension's filter: the marker occurs in the key, and the key is not the class key. */
  predicate Selected(key: string, cls: string)
  {
    IsSubstring(Marker(cls), key) && key != ClassKey(cls)
  }

  /** `key[len(cls + "_"):]`: the key without its first `|cls| + 1` characters. */
  function Strip(key: string, cls: string): (name: string)
    requires Selected(key, cls)
    ensures |name| + |cls| + 1 == |key|
    ensures key == key[..|cls| + 1] + name
  {
    key[|cls| + 1..]
  }

  /**
    `kwargs_from_args(args, cls)`. The namespace `vars(args)` is given as its
    items in iteration order; when two selected keys strip to the same name,
    the later one wins, as in the source's dict comprehension.
   */
  function KwargsFromArgs<V>(items: seq<(string, V)>, cls: string): (r: map<string, V>)
    ensures |r| <= |items|
  {
    if items == [] then map[]
    else
      var rest := KwargsFromArgs(items[..|items| - 1], cls);
      var key := items[|items| - 1].0;
      if Selected(key, cls) then rest[Strip(key, cls) := items[|items| - 1].1] else rest
  }

  /** A name is in the result exactly when some selected key strips to it. */
  lemma {:induction false} KwargsKeys<V>(items: seq<(string, V)>, cls: string, name: string)
    ensures name in KwargsFromArgs(items, cls) <==>
              exists i :: 0 <= i < |items| && Selected(items[i].0, cls) && Strip(items[i].0, cls) == name
  {
    if items != [] {
      var init := items[..|items| - 1];
      KwargsKeys(init, cls, name);
      assert forall i :: 0 <= i < |init| ==> init[i] == items[i];
      if exists i :: 0 <= i < |items| && Selected(items[i].0, cls) && Strip(items[i].0, cls) == name {
        var i :| 0 <= i < |items| && Selected(items[i].0, cls) && Strip(items[i].0, cls) == name;
        if i < |init| {
          assert Selected(init[i].0, cls) && Strip(init[i].0, cls) == name;
        }
      }
    }
  }

  /**
    Values pass through unchanged: the value under a name is the value of the
    last selected key that strips to that name.
   */
  lemma {:induction false} KwargsLastWins<V>(items: seq<(string, V)>, cls: string, i: nat)
    requires i < |items| && Selected(items[i].0, cls)
    requires forall j :: i < j < |items| ==> !(Selected(items[j].0, cls) && Strip(items[j].0, cls) == Strip(items[i].0, cls))
    ensures Strip(items[i].0, cls) in KwargsFromArgs(items, cls)
    ensures KwargsFromArgs(items, cls)[Strip(items[i].0, cls)] == items[i].1
  {
    if i < |items| - 1 {
      var init := items[..|items| - 1];
      assert init[i] == items[i];
      assert forall j :: i < j < |init| ==> init[j] == items[j];
      KwargsLastWins(init, cls, i);
    }
  }

  /** Removes every item whose key is `key`. */
  function WithoutKey<V>(items: seq<(string, V)>, key: string): (r: seq<(string, V)>)
    ensures |r| <= |items|
    ensures forall i :: 0 <= i < |r| ==> r[i].0 != key
  {
    if items == [] then []
    else
      var rest := WithoutKey(items[..|items| - 1], key);
      if items[|items| - 1].0 == key then rest else rest + [items[|items| - 1]]
  }

  /** The class key never contributes: dropping it from the arguments changes nothing. */
  lemma {:induction false} ClassKeyNeverContributes<V>(items: seq<(string, V)>, cls: string)
    ensures KwargsFromArgs(WithoutKey(items, ClassKey(cls)), cls) == KwargsFromArgs(items, cls)
  {
    if items != [] {
      var init := items[..|items| - 1];
      var last := items[|items| - 1];
      ClassKeyNeverContributes(init, cls);
      if last.0 != ClassKey(cls) {
        var kept := WithoutKey(init, ClassKey(cls)) + [last];
        assert kept[..|kept| - 1] == WithoutKey(init, ClassKey(cls));
      }
    }
  }

  /**
    The filter is containment, not prefix: a key with the marker in its middle
    is selected, and stripping its first `|cls| + 1` characters garbles it.
   */
  lemma KwargsKeepsInfixMatch()
    ensures Selected("pre_model_lr", "model")
    ensures KwargsFromArgs([("pre_model_lr", 1)], "model") == map["del_lr" := 1]
  {
  }

  /** The intended filter: the key starts with the marker and is not the class key. */
  predicate SelectedByPrefix(key: string, cls: string)
  {
    |Marker(cls)| <= |key| && key[..|cls| + 1] == Marker(cls) && key != ClassKey(cls)
  }

  /** `kwargs_from_args` with the prefix test the stripping presumes. */
  function KwargsFromArgsByPrefix<V>(items: seq<(string, V)>, cls: string): (r: map<string, V>)
    ensures |r| <= |items|
  {
    if items == [] then map[]
    else
      var rest := KwargsFromArgsByPrefix(items[..|items| - 1], cls);
      var key := items[|items| - 1].0;
      if SelectedByPrefix(key, cls) then rest[key[|cls| + 1..] := items[|items| - 1].1] else rest
  }

  /** Item keys are distinct, as the keys of a namespace are. */
  predicate DistinctKeys<V>(items: seq<(string, V)>)
  {
    forall i, j :: 0 <= i < j < |items| ==> items[i].0 != items[j].0
  }

  /**
    With the prefix test every result name round-trips: it is a key of the
    arguments once the marker is put back, and it holds that key's value.
   */
  lemma {:induction false} KwargsByPrefixRoundTrip<V>(items: seq<(string, V)>, cls: string, name: string)
    requires DistinctKeys(items)
    ensures name in KwargsFromArgsByPrefix(items, cls) <==>
              name != "class" && exists i :: 0 <= i < |items| && items[i].0 == Marker(cls) + name
    ensures forall i :: 0 <= i < |items| && items[i].0 == Marker(cls) + name && name != "class" ==>
              KwargsFromArgsByPrefix(items, cls)[name] == items[i].1
  {
    if items != [] {
      var init := items[..|items| - 1];
      var key := items[|items| - 1].0;
      assert forall i :: 0 <= i < |init| ==> init[i] == items[i];
      KwargsByPrefixRoundTrip(init, cls, name);
      if key == Marker(cls) + name {
        assert key[..|cls| + 1] == Marker(cls) && key[|cls| + 1..] == name;
      } else if SelectedByPrefix(key, cls) {
        assert key == Marker(cls) + key[|cls| + 1..];
      }
    }
  }

  // ---------------------------------------------------------------------------
  // update_hyperparameter_schedule

  /** The floor below which the learning rate is never decayed. */
  const MinLr: real := 0.000001

  /** The two command-line values the schedule reads. */
  datatype ScheduleArgs = ScheduleArgs(scheduleLrFrequency: int, scheduleLrFraction: real)

  /** An optimizer parameter group: its learning rate and every other entry. */
  datatype ParamGroup<T> = ParamGroup(lr: real, others: map<string, T>)

  /** Dividing by a zero fraction raises Python's ZeroDivisionError. */
  datatype ScheduleError = ZeroDivisionError

  /**
    Whether this iteration decays the learning rate: a positive frequency that
    divides `globalIteration + 1`. For a positive divisor Python's `%` and
    Dafny's `%` agree, including on negative dividends.
   */
  predicate Triggers(args: ScheduleArgs, globalIteration: int)
  {
    args.scheduleLrFrequency > 0 && (globalIteration + 1) % args.scheduleLrFrequency == 0
  }

  /** `max(lr / fraction, 0.000001)`. */
  function DecayedLr(lr: real, fraction: real): (r: real)
    requires fraction != 0.0
    ensures r >= MinLr && r >= lr / fraction
    ensures r == lr / fraction || r == MinLr
  {
    var scaled := lr / fraction;
    if scaled >= MinLr then scaled else MinLr
  }

  /** What a call does to one group: on a trigger with a usable fraction, decay its rate. */
  function ScheduledGroup<T>(args: ScheduleArgs, globalIteration: int, g: ParamGroup<T>): (r: ParamGroup<T>)
    ensures r.others == g.others
    ensures Triggers(args, globalIteration) && args.scheduleLrFraction != 0.0 ==>
              r.lr >= MinLr && r.lr == DecayedLr(g.lr, args.scheduleLrFraction)
  {
    if Triggers(args, globalIteration) && args.scheduleLrFraction != 0.0 then
      g.(lr := DecayedLr(g.lr, args.scheduleLrFraction))
    else g
  }

  /**
    What one call does to the parameter groups: nothing between triggers;
    on a trigger every group's learning rate decays and nothing else changes,
    unless the fraction is zero and there is a group to divide.
   */
  function ScheduledGroups<T>(args: ScheduleArgs, globalIteration: int, groups: seq<ParamGroup<T>>)
    : (r: Result<seq<ParamGroup<T>>, ScheduleError>)
    ensures !Triggers(args, globalIteration) ==> r == Ok(groups)
    ensures r.Err? <==> Triggers(args, globalIteration) && |groups| > 0 && args.scheduleLrFraction == 0.0
    ensures r.Ok? ==> |r.value| == |groups|
    ensures r.Ok? ==> forall i :: 0 <= i < |groups| ==> r.value[i].others == groups[i].others
    ensures r.Ok? && Triggers(args, globalIteration) ==>
              forall i :: 0 <= i < |groups| ==>
                r.value[i].lr >= MinLr && r.value[i].lr == DecayedLr(groups[i].lr, args.scheduleLrFraction)
  {
    if Triggers(args, globalIteration) && |groups| > 0 && args.scheduleLrFraction == 0.0 then
      Err(ZeroDivisionError)
    else
      var out := seq(|groups|, i requires 0 <= i < |groups| => ScheduledGroup(args, globalIteration, groups[i]));
      assert !Triggers(args, globalIteration) ==> out == groups;
      Ok(out)
  }

  /**
    `update_hyperparameter_schedule`: walks the optimizer's parameter groups
    and, on a triggering iteration, divides each learning rate by the fraction
    and then raises it to the floor. `epoch` is unused, as in the source.
   */
  method UpdateHyperparameterSchedule<T>(args: ScheduleArgs, epoch: int, globalIteration: int,
                                         paramGroups: array<ParamGroup<T>>)
    returns (outcome: Outcome<ScheduleError>)
    modifies paramGroups
    ensures ScheduledGroups(args, globalIteration, old(paramGroups[..])).Ok? ==>
              outcome == Pass && paramGroups[..] == ScheduledGroups(args, globalIteration, old(paramGroups[..])).value
    ensures ScheduledGroups(args, globalIteration, old(paramGroups[..])).Err? ==>
              outcome == Fail(ZeroDivisionError) && paramGroups[..] == old(paramGroups[..])
  {
    ghost var before := paramGroups[..];
    if args.scheduleLrFrequency > 0 {
      var i := 0;
      while i < paramGroups.Length
        invariant 0 <= i <= paramGroups.Length
        invariant Triggers(args, globalIteration) && args.scheduleLrFraction == 0.0 ==> i == 0
        invariant forall j :: 0 <= j < i ==> paramGroups[j] == ScheduledGroup(args, globalIteration, before[j])
        invariant forall j :: i <= j < paramGroups.Length ==> paramGroups[j] == before[j]
      {
        if (globalIteration + 1) % args.scheduleLrFrequency == 0 {
          if args.scheduleLrFraction == 0.0 {
            return Fail(ZeroDivisionError);
          }
          // param_group['lr'] /= float(args.schedule_lr_fraction)
          paramGroups[i] := paramGroups[i].(lr := paramGroups[i].lr / args.scheduleLrFraction);
          // param_group['lr'] = float(np.maximum(param_group['lr'], 0.000001))
          var lr := paramGroups[i].lr;
          paramGroups[i] := paramGroups[i].(lr := if lr >= MinLr then lr else MinLr);
        }
        i := i + 1;
      }
    }
    return Pass;
  }

  /** `fraction` raised to the power `k`. */
  function Power(fraction: real, k: nat): (p: real)
  {
    if k == 0 then 1.0 else fraction * Power(fraction, k - 1)
  }

  /** Learning rate after `k` triggering iterations. */
  function DecayedLrAfter(lr: real, fraction: real, k: nat): (r: real)
    requires fraction != 0.0
  {
    if k == 0 then lr else DecayedLr(DecayedLrAfter(lr, fraction, k - 1), fraction)
  }

  /** With fractions of at least 1, two decays are one decay by the product. */
  lemma DecayTwice(lr: real, p: real, f: real)
    requires p >= 1.0 && f >= 1.0
    ensures f * p >= 1.0
    ensures DecayedLr(DecayedLr(lr, p), f) == DecayedLr(lr, f * p)
  {
  }

  /**
    With a fraction of at least 1 the floor commutes with further decay: after
    `k >= 1` triggers the rate is `max(lr / fraction^k, 0.000001)`.
   */
  lemma {:induction false} DecayedLrAfterIsClosedForm(lr: real, fraction: real, k: nat)
    requires fraction >= 1.0 && k >= 1
    ensures Power(fraction, k) >= 1.0
    ensures DecayedLrAfter(lr, fraction, k) == DecayedLr(lr, Power(fraction, k))
  {
    var p := Power(fraction, k - 1);
    assert Power(fraction, k) == fraction * p;
    if k == 1 {
      assert p == 1.0 && DecayedLrAfter(lr, fraction, 0) == lr;
    } else {
      DecayedLrAfterIsClosedForm(lr, fraction, k - 1);
      DecayTwice(lr, p, fraction);
    }
  }
}
