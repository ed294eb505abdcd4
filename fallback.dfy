/**
 * The states fallback shared by AutomationList (automation.go:138-173) and ScriptList
 * (script.go:54-88): when the configuration endpoint fails, the list is rebuilt from
 * /api/states by keeping the entities of one domain, in order, and reading a few of
 * their attributes.
 */
module Fallback {

  import opened Wrappers
  import opened Strings
  import opened Json
  import opened Errors
  import opened Types

  /** The states whose entity id starts with `prefix`, in input order. */
  function Matching(states: seq<State>, prefix: string): (r: seq<State>)
    ensures |r| <= |states|
  {
    if states == [] then []
    else
      var last := states[|states| - 1];
      Matching(states[..|states| - 1], prefix) + (if HasPrefix(last.entityID, prefix) then [last] else [])
  }

  /** Filtering a concatenation filters each part: the kept states stay in input order. */
  lemma {:induction false} MatchingAppend(a: seq<State>, b: seq<State>, prefix: string)
    ensures Matching(a + b, prefix) == Matching(a, prefix) + Matching(b, prefix)
    decreases |b|
  {
    if b != [] {
      var b' := b[..|b| - 1];
      assert (a + b)[..|a + b| - 1] == a + b';
      MatchingAppend(a, b', prefix);
    } else {
      assert a + b == a;
    }
  }

  /** Every kept state comes from the input and belongs to the domain. */
  lemma {:induction false} MatchingSound(states: seq<State>, prefix: string)
    ensures forall s :: s in Matching(states, prefix) ==> s in states && HasPrefix(s.entityID, prefix)
  {
    if states != [] {
      MatchingSound(states[..|states| - 1], prefix);
    }
  }

  /** Every state of the domain is kept. */
  lemma {:induction false} MatchingComplete(states: seq<State>, prefix: string)
    ensures forall s :: s in states && HasPrefix(s.entityID, prefix) ==> s in Matching(states, prefix)
  {
    if states != [] {
      var init := states[..|states| - 1];
      MatchingComplete(init, prefix);
      assert states == init + [states[|states| - 1]];
    }
  }

  /** The string attribute `key` when it is a non-empty JSON string. */
  function NonEmptyAttr(attrs: map<string, Value>, key: string): (r: Option<string>)
    ensures r.Some? <==> key in attrs && attrs[key].Str? && attrs[key].s != ""
    ensures r.Some? ==> attrs[key] == Str(r.value)
  {
    match StringAttr(attrs, key)
    case Some(v) => if v != "" then Some(v) else None
    case None => None
  }

  /**
   * The alias read from a state: its friendly_name when that is a string (even an empty
   * one), otherwise the entity id without the domain prefix.
   */
  function AliasOf(s: State, prefix: string): (alias: string)
    ensures StringAttr(s.attributes, "friendly_name").Some? ==>
      alias == StringAttr(s.attributes, "friendly_name").value
    ensures StringAttr(s.attributes, "friendly_name").None? && HasPrefix(s.entityID, prefix) ==>
      prefix + alias == s.entityID
  {
    match StringAttr(s.attributes, "friendly_name")
    case Some(name) => name
    case None => TrimPrefix(s.entityID, prefix)
  }

  /** The `for` loop of the fallback: one `make(state)` per state of the domain, appended in order. */
  method Collect<C>(states: seq<State>, prefix: string, make: State -> C) returns (out: seq<C>)
    ensures |out| == |Matching(states, prefix)|
    ensures forall k :: 0 <= k < |out| ==> out[k] == make(Matching(states, prefix)[k])
  {
    out := [];
    var i := 0;
    while i < |states|
      invariant 0 <= i <= |states|
      invariant |out| == |Matching(states[..i], prefix)|
      invariant forall k :: 0 <= k < |out| ==> out[k] == make(Matching(states[..i], prefix)[k])
    {
      var state := states[i];
      assert states[..i + 1][..i] == states[..i];
      if HasPrefix(state.entityID, prefix) {
        out := out + [make(state)];
      }
      i := i + 1;
    }
    assert states[..i] == states;
  }

  /**
   * The error of a list whose two sources both failed: the first error is wrapped, the
   * second only printed.
   */
  function ListFailure(op: string, configErr: Error, statesErr: Error): (e: Error)
    ensures Contains(Text(e), "config endpoint failed")
    ensures Contains(Text(e), "states fallback also failed")
    ensures Contains(Text(e), Text(configErr)) && Contains(Text(e), Text(statesErr))
    ensures Unwrap(e) == Some(configErr)
    ensures HasPrefix(Text(e), op)
  {
    var first, second := "config endpoint failed", "states fallback also failed";
    var e := Wrapped(op + first + " (", configErr, "), " + second + (" (" + Text(statesErr) + ")"));
    FailureTextPieces(op, first, Text(configErr), second, Text(statesErr));
    e
  }

  /** The pieces of "<op><first> (<t>), <second> (<u>)" all occur in it, and it starts with <op>. */
  lemma FailureTextPieces(op: string, first: string, t: string, second: string, u: string)
    ensures var s := (op + first + " (") + t + ("), " + second + (" (" + u + ")"));
      Contains(s, first) && Contains(s, second) && Contains(s, t) && Contains(s, u) && HasPrefix(s, op)
  {
    var s := (op + first + " (") + t + ("), " + second + (" (" + u + ")"));
    assert s == op + first + (" (" + t + "), " + second + " (" + u + ")");
    ContainsPiece(op, first, " (" + t + "), " + second + " (" + u + ")");
    ContainsPiece(op + first + " (", t, "), " + second + (" (" + u + ")"));
    assert s == (op + first + " (" + t + "), ") + second + (" (" + u + ")");
    ContainsPiece(op + first + " (" + t + "), ", second, " (" + u + ")");
    assert s == (op + first + " (" + t + "), " + second + " (") + u + ")";
    ContainsPiece(op + first + " (" + t + "), " + second + " (", u, ")");
    assert s[..|op|] == op;
  }
}
