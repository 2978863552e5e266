/**
 * Naming helpers. An attribute name is "builtin" when it starts and ends with
 * a double underscore. The framework keeps a `backtrace` of names for each
 * signal; the last entry is the name the signal gets in generated code, so
 * renaming a signal appends an entry.
 */
module Naming {
  import opened Opt
  import opened Migen

  /** `s[:k]` in Python: the first `k` characters, or all of `s` when it is
      shorter. */
  function Head(s: string, k: nat): (r: string)
    ensures |r| == if |s| < k then |s| else k
    ensures r <= s
  {
    if |s| < k then s else s[..k]
  }

  /** `s[-k:]` in Python, for `k >= 1`: the last `k` characters, or all of
      `s` when it is shorter. */
  function Tail(s: string, k: nat): (r: string)
    ensures |r| == if |s| < k then |s| else k
    ensures forall i :: 0 <= i < |r| ==> r[i] == s[|s| - |r| + i]
  {
    if |s| < k then s else s[|s| - k..]
  }

  /** `is_attr_builtin`: the name starts with `__` and ends with `__`; the two
      may overlap, so `__` and `___` count, and no name shorter than two
      characters does. */
  predicate IsAttrBuiltin(name: string)
  {
    Head(name, 2) == "__" && Tail(name, 2) == "__"
  }

  lemma IsAttrBuiltinChars(name: string)
    ensures IsAttrBuiltin(name) <==>
              |name| >= 2 && name[0] == '_' && name[1] == '_'
              && name[|name| - 2] == '_' && name[|name| - 1] == '_'
  {
    if |name| >= 2 {
      var h, t := Head(name, 2), Tail(name, 2);
      assert h == [name[0], name[1]];
      assert t == [name[|name| - 2], name[|name| - 1]];
    }
  }

  lemma BuiltinExamples()
    ensures IsAttrBuiltin("__") && IsAttrBuiltin("___") && IsAttrBuiltin("__init__")
    ensures !IsAttrBuiltin("") && !IsAttrBuiltin("_") && !IsAttrBuiltin("__x") && !IsAttrBuiltin("x__")
  {
    IsAttrBuiltinChars("__");
    IsAttrBuiltinChars("___");
    IsAttrBuiltinChars("__init__");
    IsAttrBuiltinChars("__x");
    IsAttrBuiltinChars("x__");
  }

  /** `a` is `b` with some elements left out, the rest in the same order. */
  predicate IsSubsequence<T(==)>(a: seq<T>, b: seq<T>)
    decreases |b|
  {
    if a == [] then true
    else if b == [] then false
    else if a[0] == b[0] then IsSubsequence(a[1..], b[1..])
    else IsSubsequence(a, b[1..])
  }

  /** `non_builtin_attrs`, given the names `dir(obj)` lists: the names that
      are not builtin, in the order listed, each as often as listed. */
  function NonBuiltinAttrs(names: seq<string>): (r: seq<string>)
    ensures forall i :: 0 <= i < |r| ==> !IsAttrBuiltin(r[i])
    ensures forall a :: multiset(r)[a] == if IsAttrBuiltin(a) then 0 else multiset(names)[a]
    ensures IsSubsequence(r, names)
  {
    if names == [] then []
    else
      var rest := NonBuiltinAttrs(names[1..]);
      assert names == [names[0]] + names[1..];
      if IsAttrBuiltin(names[0]) then
        SubsequenceDrop(rest, names[0], names[1..]);
        rest
      else
        [names[0]] + rest
  }

  lemma {:induction false} SubsequenceDrop<T>(a: seq<T>, x: T, b: seq<T>)
    requires IsSubsequence(a, b)
    ensures IsSubsequence(a, [x] + b)
    decreases |a| + |b|, 1
  {
    if a != [] {
      var xb := [x] + b;
      assert xb[1..] == b;
      if a[0] != x {
        assert IsSubsequence(a, xb[1..]);
      } else {
        assert a == [a[0]] + a[1..];
        SubsequenceTail(a, b);
      }
    }
  }

  /** Dropping the first element keeps a subsequence a subsequence. */
  lemma {:induction false} SubsequenceTail<T>(a: seq<T>, b: seq<T>)
    requires a != [] && IsSubsequence(a, b)
    ensures IsSubsequence(a[1..], b)
    decreases |a| + |b|, 0
  {
    if b != [] {
      if a[0] == b[0] {
        SubsequenceDrop(a[1..], b[0], b[1..]);
        assert b == [b[0]] + b[1..];
      } else {
        SubsequenceTail(a, b[1..]);
        SubsequenceDrop(a[1..], b[0], b[1..]);
        assert b == [b[0]] + b[1..];
      }
    }
  }

  /** `migen_obj_name`: the last name in the backtrace. Python raises
      `IndexError` on an empty backtrace; that case is `None` here. */
  function MigenObjName(obj: Signal): (r: Option<string>)
    reads obj
    ensures r.None? <==> obj.backtrace == []
    ensures r.Some? ==> r == Some(obj.backtrace[|obj.backtrace| - 1].name)
  {
    if obj.backtrace == [] then None else Some(obj.backtrace[|obj.backtrace| - 1].name)
  }

  /** `rename_migen_obj`: appends `(name, None)` to the backtrace, so the
      object is now called `name` and its earlier names are kept. */
  method RenameMigenObj(obj: Signal, name: string)
    modifies obj
    ensures obj.backtrace == old(obj.backtrace) + [Frame(name, None)]
    ensures MigenObjName(obj) == Some(name)
  {
    obj.backtrace := obj.backtrace + [Frame(name, None)];
  }

  /** `rename_migen_fsm`: names the FSM's state register `name_state` and
      its next-state signal `name_next_state`. */
  method RenameMigenFsm(fsm: Fsm, name: string)
    requires fsm.Valid()
    modifies fsm.state, fsm.nextState
    ensures fsm.state.backtrace == old(fsm.state.backtrace) + [Frame(name + "_state", None)]
    ensures fsm.nextState.backtrace == old(fsm.nextState.backtrace) + [Frame(name + "_next_state", None)]
    ensures MigenObjName(fsm.state) == Some(name + "_state")
    ensures MigenObjName(fsm.nextState) == Some(name + "_next_state")
  {
    RenameMigenObj(fsm.state, name + "_state");
    RenameMigenObj(fsm.nextState, name + "_next_state");
  }
}
