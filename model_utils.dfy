/** `freeze_layers`: walk the model's parameters in order and freeze every
    one before the first whose name contains `freeze_until`; that one and
    every later one stay trainable.

    The model is its ordered list of parameter names together with an
    array holding each parameter's `requires_grad` flag. */
module ModelUtils {
  import opened Wrappers

  /** Python's `sub in s` on strings, by scanning start positions. */
  predicate Contains(s: string, sub: string)
    decreases |s|
  {
    (|sub| <= |s| && s[..|sub|] == sub) || (s != [] && Contains(s[1..], sub))
  }

  /** `sub` occurs at some position of `s`: the reference meaning of
      `Contains`. */
  predicate OccursAt(s: string, sub: string, i: int)
  {
    0 <= i && i + |sub| <= |s| && s[i..i + |sub|] == sub
  }

  lemma {:induction false} ContainsIffOccurs(s: string, sub: string)
    ensures Contains(s, sub) <==> exists i :: OccursAt(s, sub, i)
    decreases |s|
  {
    if s != [] {
      ContainsIffOccurs(s[1..], sub);
      if |sub| <= |s| && s[..|sub|] == sub {
        assert s[0..|sub|] == s[..|sub|];
        assert OccursAt(s, sub, 0);
      }
      if exists i :: OccursAt(s[1..], sub, i) {
        var i :| OccursAt(s[1..], sub, i);
        assert s[i + 1..i + 1 + |sub|] == s[1..][i..i + |sub|];
        assert OccursAt(s, sub, i + 1);
      }
      if exists i :: OccursAt(s, sub, i) {
        var i :| OccursAt(s, sub, i);
        if i > 0 {
          assert s[1..][i - 1..i - 1 + |sub|] == s[i..i + |sub|];
          assert OccursAt(s[1..], sub, i - 1);
        } else {
          assert s[..|sub|] == s[0..|sub|];
        }
      }
    } else if sub == [] {
      assert OccursAt(s, sub, 0);
    }
  }

  /** The parameter named `name` switches freezing off: a non-empty
      `freeze_until` is part of the name. */
  predicate Unfreezes(freezeUntil: Option<string>, name: string)
  {
    freezeUntil.Some? && freezeUntil.value != "" && Contains(name, freezeUntil.value)
  }

  /** The position of the first parameter that switches freezing off. */
  function FirstUnfreezing(names: seq<string>, freezeUntil: Option<string>): (r: Option<nat>)
    ensures r.Some? ==> r.value < |names| && Unfreezes(freezeUntil, names[r.value])
    ensures r.Some? ==> forall j :: 0 <= j < r.value ==> !Unfreezes(freezeUntil, names[j])
    ensures r.None? <==> forall j :: 0 <= j < |names| ==> !Unfreezes(freezeUntil, names[j])
  {
    if names == [] then None
    else if Unfreezes(freezeUntil, names[0]) then Some(0)
    else
      match FirstUnfreezing(names[1..], freezeUntil)
      case None => None
      case Some(k) => Some(k + 1)
  }

  /** Whether parameter i ends up trainable. */
  predicate Trainable(names: seq<string>, freezeUntil: Option<string>, i: nat)
  {
    var first := FirstUnfreezing(names, freezeUntil);
    first.Some? && first.value <= i
  }

  /** `freeze_layers`: one pass with a `freeze` flag that starts set and is
      cleared, for good, at the first name containing `freeze_until`. */
  method FreezeLayers(names: seq<string>, requiresGrad: array<bool>, freezeUntil: Option<string>)
    requires requiresGrad.Length == |names|
    modifies requiresGrad
    ensures forall i :: 0 <= i < |names| ==> requiresGrad[i] == Trainable(names, freezeUntil, i)
  {
    var freeze := true;
    for i := 0 to |names|
      invariant freeze <==> forall j :: 0 <= j < i ==> !Unfreezes(freezeUntil, names[j])
      invariant forall k :: 0 <= k < i ==> requiresGrad[k] == Trainable(names, freezeUntil, k)
    {
      if Unfreezes(freezeUntil, names[i]) {
        freeze := false;
      }
      requiresGrad[i] := !freeze;
    }
  }

  /** Once a parameter is trainable, every later one is too. */
  lemma TrainableIsUpwardClosed(names: seq<string>, freezeUntil: Option<string>, i: nat, j: nat)
    requires i <= j && Trainable(names, freezeUntil, i)
    ensures Trainable(names, freezeUntil, j)
  {
  }

  /** Parameter i is trainable exactly when it, or an earlier one, has
      `freeze_until` in its name. */
  lemma TrainableIffEarlierMatch(names: seq<string>, freezeUntil: Option<string>, i: nat)
    requires i < |names|
    ensures Trainable(names, freezeUntil, i) <==> exists j :: 0 <= j <= i && Unfreezes(freezeUntil, names[j])
  {
    var first := FirstUnfreezing(names, freezeUntil);
    if exists j :: 0 <= j <= i && Unfreezes(freezeUntil, names[j]) {
      var j :| 0 <= j <= i && Unfreezes(freezeUntil, names[j]);
      assert first.Some?;
    }
  }

  /** Without a (non-empty) `freeze_until`, or when no name contains it,
      everything is frozen. */
  lemma NoMatchFreezesAll(names: seq<string>, freezeUntil: Option<string>, i: nat)
    requires freezeUntil.None? || freezeUntil.value == ""
             || forall j :: 0 <= j < |names| ==> !Contains(names[j], freezeUntil.value)
    ensures !Trainable(names, freezeUntil, i)
  {
  }
}
