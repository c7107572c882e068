/**
 * The token ledger of the app component: the list of committed tokens and
 * the id counter, the commit effect that turns each prediction into at most
 * one new token, the undo and reset controls, and the display text.
 *
 * `LedgerState` and the `...Step` functions describe the ledger as a value so
 * that whole event streams can be reasoned about; `TokenLedger` is the
 * mutable ledger itself, whose methods are proved to follow those functions.
 */
module Ledger {
  import opened Types
  import opened Inference
  import Constants

  /** Whether a prediction passes the commit effect's gate: present and not below the threshold. */
  function Qualifies(p: Option<Prediction>): (q: bool)
    ensures q ==> p.Some?
    ensures p.Some? ==> (q <==> Constants.ConfidenceThreshold <= p.value.confidence)
  {
    p.Some? && !(p.value.confidence < Constants.ConfidenceThreshold)
  }

  /** The gesture of the last token, if any. */
  function LastGesture(tokens: seq<Token>): (last: Option<GestureId>)
    ensures last.None? <==> tokens == []
    ensures last.Some? ==> last.value == tokens[|tokens| - 1].gestureId
  {
    if tokens == [] then None else Some(tokens[|tokens| - 1].gestureId)
  }

  /** The tokens' gestures, in order. */
  function Gestures(tokens: seq<Token>): (gs: seq<GestureId>)
    ensures |gs| == |tokens|
    ensures forall i :: 0 <= i < |tokens| ==> gs[i] == tokens[i].gestureId
  {
    seq(|tokens|, i requires 0 <= i < |tokens| => tokens[i].gestureId)
  }

  /** The tokens' texts, in order. */
  function Texts(tokens: seq<Token>): (ts: seq<string>)
    ensures |ts| == |tokens|
    ensures forall i :: 0 <= i < |tokens| ==> ts[i] == tokens[i].text
  {
    seq(|tokens|, i requires 0 <= i < |tokens| => tokens[i].text)
  }

  /**
   * The inference hook already drops predictions below the threshold, so
   * every prediction it emits passes the commit effect's gate as well.
   */
  lemma PredictionsPassCommitGate(model: Option<Classifier>, landmarks: Option<seq<Point>>)
    ensures Qualifies(Predict(model, landmarks).prediction) <==> Predict(model, landmarks).prediction.Some?
  {
  }

  /** The ledger as a value: the token list and the next id to hand out. */
  datatype LedgerState = LedgerState(tokens: seq<Token>, nextId: int)

  /** The ledger when the app starts: no tokens, ids start at 1. */
  const Initial: LedgerState := LedgerState([], 1)

  /** No two neighbouring tokens share a gesture. */
  ghost predicate NoAdjacentRepeat(tokens: seq<Token>)
  {
    forall i :: 0 < i < |tokens| ==> tokens[i - 1].gestureId != tokens[i].gestureId
  }

  /**
   * What every reachable ledger satisfies: ids are at least 1, below the
   * counter and strictly increasing; each text is its gesture's text; each
   * confidence passed the threshold; no gesture repeats back to back.
   */
  ghost predicate WellFormed(s: LedgerState)
  {
    && s.nextId >= 1
    && (forall i :: 0 <= i < |s.tokens| ==>
          && 1 <= s.tokens[i].id < s.nextId
          && s.tokens[i].text == Text(s.tokens[i].gestureId)
          && Constants.ConfidenceThreshold <= s.tokens[i].confidence)
    && (forall i, j :: 0 <= i < j < |s.tokens| ==> s.tokens[i].id < s.tokens[j].id)
    && NoAdjacentRepeat(s.tokens)
  }

  /**
   * The commit effect for one prediction: nothing below the gate, nothing
   * for a repeat of the last gesture, otherwise one token appended with the
   * next id.
   */
  function CommitStep(s: LedgerState, p: Option<Prediction>): (r: LedgerState)
    ensures s.tokens <= r.tokens && |r.tokens| <= |s.tokens| + 1
    ensures r.nextId == s.nextId + (|r.tokens| - |s.tokens|)
    ensures |r.tokens| == |s.tokens| + 1 <==> Qualifies(p) && LastGesture(s.tokens) != Some(p.value.gestureId)
    ensures |r.tokens| == |s.tokens| + 1 ==>
              r.tokens[|s.tokens|] == Token(s.nextId, p.value.gestureId, Text(p.value.gestureId), p.value.confidence)
  {
    if !Qualifies(p) then s
    else if LastGesture(s.tokens) == Some(p.value.gestureId) then s
    else
      var token := Token(s.nextId, p.value.gestureId, Text(p.value.gestureId), p.value.confidence);
      LedgerState(s.tokens + [token], s.nextId + 1)
  }

  /** Undo: drop the last token, if there is one; the counter stays. */
  function UndoStep(s: LedgerState): (r: LedgerState)
    ensures r.nextId == s.nextId
    ensures s.tokens == [] ==> r.tokens == []
    ensures s.tokens != [] ==> r.tokens + [s.tokens[|s.tokens| - 1]] == s.tokens
  {
    LedgerState(if s.tokens == [] then [] else s.tokens[..|s.tokens| - 1], s.nextId)
  }

  /** Reset: empty the list; the counter stays. */
  function ResetStep(s: LedgerState): (r: LedgerState)
    ensures r.tokens == [] && r.nextId == s.nextId
  {
    LedgerState([], s.nextId)
  }

  lemma CommitPreservesWellFormed(s: LedgerState, p: Option<Prediction>)
    requires WellFormed(s)
    ensures WellFormed(CommitStep(s, p))
  {
  }

  lemma UndoPreservesWellFormed(s: LedgerState)
    requires WellFormed(s)
    ensures WellFormed(UndoStep(s))
  {
  }

  lemma ResetPreservesWellFormed(s: LedgerState)
    requires WellFormed(s)
    ensures WellFormed(ResetStep(s))
  {
  }

  /** One event the ledger reacts to: a prediction from the pipeline, or a user control. */
  datatype Action = Frame(prediction: Option<Prediction>) | Undo | Reset

  function Perform(s: LedgerState, a: Action): LedgerState
  {
    match a
    case Frame(p) => CommitStep(s, p)
    case Undo => UndoStep(s)
    case Reset => ResetStep(s)
  }

  /** The ledger after a sequence of actions, applied one at a time in order. */
  function Replay(s: LedgerState, actions: seq<Action>): LedgerState
    decreases |actions|
  {
    if actions == [] then s else Replay(Perform(s, actions[0]), actions[1..])
  }

  /** Every ledger reachable through commits, undos and resets is well formed. */
  lemma {:induction false} ReplayPreservesWellFormed(s: LedgerState, actions: seq<Action>)
    requires WellFormed(s)
    ensures WellFormed(Replay(s, actions))
    decreases |actions|
  {
    if actions != [] {
      match actions[0] {
        case Frame(p) => CommitPreservesWellFormed(s, p);
        case Undo => UndoPreservesWellFormed(s);
        case Reset => ResetPreservesWellFormed(s);
      }
      ReplayPreservesWellFormed(Perform(s, actions[0]), actions[1..]);
    }
  }

  /** The ids handed out while replaying the actions, in the order they were handed out. */
  function Issued(s: LedgerState, actions: seq<Action>): seq<int>
    decreases |actions|
  {
    if actions == [] then []
    else
      var s' := Perform(s, actions[0]);
      (if s'.nextId != s.nextId then [s.nextId] else []) + Issued(s', actions[1..])
  }

  /**
   * The counter never goes down, even across undo and reset, so the ids
   * handed out are strictly increasing: no id is ever handed out twice.
   */
  lemma {:induction false} IssuedIdsStrictlyIncrease(s: LedgerState, actions: seq<Action>)
    ensures Replay(s, actions).nextId == s.nextId + |Issued(s, actions)|
    ensures forall i :: 0 <= i < |Issued(s, actions)| ==>
              s.nextId <= Issued(s, actions)[i] < Replay(s, actions).nextId
    ensures forall i, j :: 0 <= i < j < |Issued(s, actions)| ==>
              Issued(s, actions)[i] < Issued(s, actions)[j]
    decreases |actions|
  {
    if actions != [] {
      var s' := Perform(s, actions[0]);
      IssuedIdsStrictlyIncrease(s', actions[1..]);
      assert s'.nextId == s.nextId || s'.nextId == s.nextId + 1;
    }
  }

  /** The ledger after a stream of predictions, with no user action in between. */
  function Run(s: LedgerState, events: seq<Option<Prediction>>): LedgerState
    decreases |events|
  {
    if events == [] then s else Run(CommitStep(s, events[0]), events[1..])
  }

  /**
   * A stream of predictions only appends: the earlier tokens stay, and the
   * new ones carry consecutive ids starting at the old counter, which ends
   * just past them.
   */
  lemma {:induction false} RunOnlyAppends(s: LedgerState, events: seq<Option<Prediction>>)
    ensures s.tokens <= Run(s, events).tokens
    ensures Run(s, events).nextId == s.nextId + (|Run(s, events).tokens| - |s.tokens|)
    ensures forall i :: |s.tokens| <= i < |Run(s, events).tokens| ==>
              Run(s, events).tokens[i].id == s.nextId + (i - |s.tokens|)
    decreases |events|
  {
    if events != [] {
      var s' := CommitStep(s, events[0]);
      RunOnlyAppends(s', events[1..]);
    }
  }

  /** The stream with the absent predictions removed. */
  function Present(events: seq<Option<Prediction>>): (present: seq<Option<Prediction>>)
    ensures forall i :: 0 <= i < |present| ==> present[i].Some?
    decreases |events|
  {
    if events == [] then []
    else (if events[0].Some? then [events[0]] else []) + Present(events[1..])
  }

  /**
   * Absent predictions commit nothing and do not disturb the repeat check:
   * removing them from the stream gives the same ledger.
   */
  lemma {:induction false} RunIgnoresAbsent(s: LedgerState, events: seq<Option<Prediction>>)
    ensures Run(s, events) == Run(s, Present(events))
    decreases |events|
  {
    if events != [] {
      RunIgnoresAbsent(CommitStep(s, events[0]), events[1..]);
      if events[0].Some? {
        assert Present(events) == [events[0]] + Present(events[1..]);
        assert Present(events)[1..] == Present(events[1..]);
      } else {
        assert Present(events) == Present(events[1..]);
      }
    }
  }

  /** The gestures of the predictions that pass the gate, in order. */
  function QualifyingGestures(events: seq<Option<Prediction>>): seq<GestureId>
    decreases |events|
  {
    if events == [] then []
    else (if Qualifies(events[0]) then [events[0].value.gestureId] else []) + QualifyingGestures(events[1..])
  }

  /** The gestures with every immediate repeat removed, the first compared against `last`. */
  function Collapse(last: Option<GestureId>, gs: seq<GestureId>): seq<GestureId>
    decreases |gs|
  {
    if gs == [] then []
    else if last == Some(gs[0]) then Collapse(last, gs[1..])
    else [gs[0]] + Collapse(Some(gs[0]), gs[1..])
  }

  lemma GesturesAppend(tokens: seq<Token>, t: Token)
    ensures Gestures(tokens + [t]) == Gestures(tokens) + [t.gestureId]
  {
  }

  /**
   * What a stream commits, stated without ids or texts: the gestures of the
   * qualifying predictions with immediate repeats (including a repeat of
   * the last token already there) removed.
   */
  lemma {:induction false} RunCommitsCollapsed(s: LedgerState, events: seq<Option<Prediction>>)
    ensures Gestures(Run(s, events).tokens)
         == Gestures(s.tokens) + Collapse(LastGesture(s.tokens), QualifyingGestures(events))
    decreases |events|
  {
    if events != [] {
      var s' := CommitStep(s, events[0]);
      RunCommitsCollapsed(s', events[1..]);
      var rest := QualifyingGestures(events[1..]);
      var last := LastGesture(s.tokens);
      assert Run(s, events) == Run(s', events[1..]);
      if Qualifies(events[0]) {
        var g := events[0].value.gestureId;
        assert QualifyingGestures(events) == [g] + rest;
        assert ([g] + rest)[1..] == rest;
        if last == Some(g) {
          assert s' == s;
          assert Collapse(last, [g] + rest) == Collapse(last, rest);
        } else {
          var t := Token(s.nextId, g, Text(g), events[0].value.confidence);
          assert s'.tokens == s.tokens + [t];
          GesturesAppend(s.tokens, t);
          assert LastGesture(s'.tokens) == Some(g);
          assert Collapse(last, [g] + rest) == [g] + Collapse(Some(g), rest);
          assert Gestures(s'.tokens) + Collapse(Some(g), rest)
              == Gestures(s.tokens) + ([g] + Collapse(Some(g), rest));
        }
      } else {
        assert s' == s;
        assert QualifyingGestures(events) == rest;
      }
    }
  }

  /**
   * A held gesture: a non-empty stream in which every prediction has the same
   * gesture and passes the gate commits exactly one token, the first one,
   * unless the last token already has that gesture, in which case nothing.
   */
  lemma {:induction false} HeldGestureCommitsOnce(s: LedgerState, events: seq<Option<Prediction>>, g: GestureId)
    requires events != []
    requires forall i :: 0 <= i < |events| ==> Qualifies(events[i]) && events[i].value.gestureId == g
    ensures LastGesture(s.tokens) == Some(g) ==> Run(s, events) == s
    ensures LastGesture(s.tokens) != Some(g) ==>
              Run(s, events) == LedgerState(s.tokens + [Token(s.nextId, g, Text(g), events[0].value.confidence)], s.nextId + 1)
    decreases |events|
  {
    var s' := CommitStep(s, events[0]);
    assert LastGesture(s'.tokens) == Some(g);
    if |events| > 1 {
      HeldGestureCommitsOnce(s', events[1..], g);
    }
  }

  /** A stream of absent or below-threshold predictions, however long, commits nothing. */
  lemma {:induction false} BelowGateCommitsNothing(s: LedgerState, events: seq<Option<Prediction>>)
    requires forall i :: 0 <= i < |events| ==> !Qualifies(events[i])
    ensures Run(s, events) == s
    decreases |events|
  {
    if events != [] {
      BelowGateCommitsNothing(s, events[1..]);
    }
  }

  /**
   * The stream (a, 0.9), (a, 0.9), (b, 0.9), (b, 0.3), (c, 0.9) commits a, b
   * and c: the second a is a repeat, the weak b is below the threshold, and c
   * differs from b.
   */
  lemma ScenarioCommitsABC(s: LedgerState, a: GestureId, b: GestureId, c: GestureId)
    requires LastGesture(s.tokens) != Some(a) && a != b && b != c
    ensures Run(s, [Some(Prediction(a, 0.9)), Some(Prediction(a, 0.9)), Some(Prediction(b, 0.9)),
                    Some(Prediction(b, 0.3)), Some(Prediction(c, 0.9))])
         == LedgerState(s.tokens + [Token(s.nextId, a, Text(a), 0.9), Token(s.nextId + 1, b, Text(b), 0.9),
                                    Token(s.nextId + 2, c, Text(c), 0.9)], s.nextId + 3)
  {
    var events := [Some(Prediction(a, 0.9)), Some(Prediction(a, 0.9)), Some(Prediction(b, 0.9)),
                   Some(Prediction(b, 0.3)), Some(Prediction(c, 0.9))];
    var s1 := CommitStep(s, events[0]);
    var s2 := CommitStep(s1, events[1]);
    var s3 := CommitStep(s2, events[2]);
    var s4 := CommitStep(s3, events[3]);
    var s5 := CommitStep(s4, events[4]);
    assert s2 == s1 && s4 == s3;
    assert Run(s5, events[5..]) == s5;
    assert Run(s4, events[4..]) == s5;
    assert Run(s3, events[3..]) == s5;
    assert Run(s2, events[2..]) == s5;
    assert Run(s1, events[1..]) == s5;
  }

  /**
   * The display text: the texts joined with single spaces. It begins with
   * the first text, and when no text holds a space it holds a space exactly
   * when there are at least two texts.
   */
  function Join(parts: seq<string>): (joined: string)
    ensures parts == [] ==> joined == ""
    ensures parts != [] ==> parts[0] <= joined
    ensures (forall i :: 0 <= i < |parts| ==> ' ' !in parts[i]) ==> (' ' in joined <==> |parts| >= 2)
    decreases |parts|
  {
    if parts == [] then ""
    else if |parts| == 1 then parts[0]
    else parts[0] + " " + Join(parts[1..])
  }

  /**
   * The text the app shows for a token list. When no token text holds a
   * space, splitting it on ' ' gives the texts back.
   */
  function RecognizedText(tokens: seq<Token>): (text: string)
    ensures tokens == [] ==> text == ""
    ensures tokens != [] && (forall i :: 0 <= i < |tokens| ==> ' ' !in tokens[i].text) ==>
              Split(text) == Texts(tokens)
  {
    var text := Join(Texts(tokens));
    assert tokens != [] && (forall i :: 0 <= i < |tokens| ==> ' ' !in tokens[i].text) ==>
             Split(text) == Texts(tokens) by {
      if tokens != [] && (forall i :: 0 <= i < |tokens| ==> ' ' !in tokens[i].text) {
        SplitJoin(Texts(tokens));
      }
    }
    text
  }

  /** The first space of a string. */
  function SpaceIndex(s: string): (k: nat)
    requires ' ' in s
    ensures k < |s| && s[k] == ' ' && ' ' !in s[..k]
  {
    if s[0] == ' ' then 0
    else
      var k := SpaceIndex(s[1..]);
      assert s[..k + 1] == [s[0]] + s[1..][..k];
      k + 1
  }

  /** Splitting on ' ', as the host language does it: the empty string gives one empty piece. */
  function Split(s: string): (parts: seq<string>)
    ensures parts != []
    ensures forall i :: 0 <= i < |parts| ==> ' ' !in parts[i]
    decreases |s|
  {
    if ' ' !in s then [s]
    else
      var k := SpaceIndex(s);
      [s[..k]] + Split(s[k + 1..])
  }

  /** The first space after a space-free prefix is the one that ends it. */
  lemma {:induction false} SpaceAfterSpaceFreePrefix(head: string, rest: string)
    requires ' ' !in head
    ensures ' ' in head + " " + rest
    ensures SpaceIndex(head + " " + rest) == |head|
    decreases |head|
  {
    var joined := head + " " + rest;
    assert joined[|head|] == ' ';
    if head != [] {
      assert joined[0] == head[0];
      assert joined[1..] == head[1..] + " " + rest;
      SpaceAfterSpaceFreePrefix(head[1..], rest);
    }
  }

  /** Splitting a joined list of space-free pieces gives the pieces back. */
  lemma {:induction false} SplitJoin(parts: seq<string>)
    requires parts != []
    requires forall i :: 0 <= i < |parts| ==> ' ' !in parts[i]
    ensures Split(Join(parts)) == parts
    decreases |parts|
  {
    if |parts| > 1 {
      var head, rest := parts[0], Join(parts[1..]);
      var joined := head + " " + rest;
      assert Join(parts) == joined;
      assert ' ' in joined by { assert joined[|head|] == ' '; }
      SpaceAfterSpaceFreePrefix(head, rest);
      assert joined[..|head|] == head;
      assert joined[|head| + 1..] == rest;
      SplitJoin(parts[1..]);
      assert parts == [head] + parts[1..];
    }
  }

  /**
   * Splitting the display text of a non-empty ledger on ' ' recovers each
   * token's text, hence each token's gesture, in order.
   */
  lemma RecognizedTextRoundTrip(s: LedgerState)
    requires WellFormed(s) && s.tokens != []
    ensures Split(RecognizedText(s.tokens)) == Texts(s.tokens)
    ensures forall i :: 0 <= i < |s.tokens| ==>
              GestureOfText(Split(RecognizedText(s.tokens))[i]) == Some(s.tokens[i].gestureId)
  {
    var texts := Texts(s.tokens);
    forall i | 0 <= i < |texts|
      ensures ' ' !in texts[i] && GestureOfText(texts[i]) == Some(s.tokens[i].gestureId)
    {
      GestureOfTextInvertsText(s.tokens[i].gestureId);
    }
    SplitJoin(texts);
  }

  /** The empty ledger shows the empty text; two tokens 일 and 이 show "일 이". */
  lemma RecognizedTextExamples(t1: Token, t2: Token)
    requires t1.text == "일" && t2.text == "이"
    ensures RecognizedText([]) == ""
    ensures RecognizedText([t1, t2]) == "일 이"
  {
    assert Texts([t1, t2]) == ["일", "이"];
    assert ["일", "이"][1..] == ["이"];
    assert Join(["일", "이"]) == "일" + " " + "이";
  }

  /** The ledger itself: the token list and the id counter, updated in place. */
  class TokenLedger {
    var tokens: seq<Token>
    var nextId: int
    /** Every id this ledger has handed out. */
    ghost var issued: set<int>

    function State(): LedgerState
      reads this
    {
      LedgerState(tokens, nextId)
    }

    ghost predicate Valid()
      reads this
    {
      && WellFormed(State())
      && (forall id :: id in issued ==> id < nextId)
      && (forall i :: 0 <= i < |tokens| ==> tokens[i].id in issued)
    }

    constructor ()
      ensures Valid()
      ensures State() == Initial && issued == {}
    {
      tokens := [];
      nextId := 1;
      issued := {};
    }

    /** The commit effect, run once per new prediction. */
    method Commit(prediction: Option<Prediction>)
      requires Valid()
      modifies this
      ensures Valid()
      ensures State() == CommitStep(old(State()), prediction)
      ensures !Qualifies(prediction) ==>
                tokens == old(tokens) && nextId == old(nextId) && issued == old(issued)
      ensures Qualifies(prediction) && LastGesture(old(tokens)) == Some(prediction.value.gestureId) ==>
                tokens == old(tokens) && nextId == old(nextId) && issued == old(issued)
      ensures Qualifies(prediction) && LastGesture(old(tokens)) != Some(prediction.value.gestureId) ==>
                && tokens == old(tokens) + [Token(old(nextId), prediction.value.gestureId,
                                                  Text(prediction.value.gestureId), prediction.value.confidence)]
                && nextId == old(nextId) + 1
                && old(nextId) !in old(issued)
                && issued == old(issued) + {old(nextId)}
    {
      if prediction.None? {
        return;
      }
      var gestureId, confidence := prediction.value.gestureId, prediction.value.confidence;
      if confidence < Constants.ConfidenceThreshold {
        return;
      }
      if tokens != [] && tokens[|tokens| - 1].gestureId == gestureId {
        return;
      }
      var id := nextId;
      nextId := nextId + 1;
      issued := issued + {id};
      tokens := tokens + [Token(id, gestureId, Text(gestureId), confidence)];
    }

    /** Undo: drop the last token; nothing on an empty list. */
    method Undo()
      requires Valid()
      modifies this
      ensures Valid()
      ensures State() == UndoStep(old(State()))
      ensures tokens == (if old(tokens) == [] then [] else old(tokens)[..|old(tokens)| - 1])
      ensures nextId == old(nextId) && issued == old(issued)
    {
      if tokens != [] {
        tokens := tokens[..|tokens| - 1];
      }
    }

    /** Reset: empty the list; the counter keeps counting. */
    method Reset()
      requires Valid()
      modifies this
      ensures Valid()
      ensures State() == ResetStep(old(State()))
      ensures tokens == [] && nextId == old(nextId) && issued == old(issued)
    {
      tokens := [];
    }

    /**
     * The display text of the current tokens: "" for none, and otherwise a
     * text whose pieces between spaces are the tokens' texts, each naming
     * its token's gesture.
     */
    function DisplayText(): (text: string)
      requires Valid()
      reads this
      ensures tokens == [] ==> text == ""
      ensures tokens != [] ==> Split(text) == Texts(tokens)
      ensures tokens != [] ==>
                forall i :: 0 <= i < |tokens| ==> GestureOfText(Split(text)[i]) == Some(tokens[i].gestureId)
    {
      if tokens == [] then ""
      else
        RecognizedTextRoundTrip(State());
        RecognizedText(tokens)
    }
  }
}
