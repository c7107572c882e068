/**
 * The shared vocabulary of the translator: the five Korean Sign Language
 * gestures, the gesture-to-text table, the committed token record and the
 * hand landmark point.
 */
module Types {

  datatype Option<T> = None | Some(value: T)

  /** The recognised gestures, one per Korean numeral from one to five. */
  datatype GestureId = KSL_1 | KSL_2 | KSL_3 | KSL_4 | KSL_5

  /** Every gesture, in declaration order. */
  const AllGestures: seq<GestureId> := [KSL_1, KSL_2, KSL_3, KSL_4, KSL_5]

  /**
   * One committed unit of output. The text is resolved when the token is
   * committed and is stored with it.
   */
  datatype Token = Token(id: int, gestureId: GestureId, text: string, confidence: real)

  /** One hand keypoint as published to the classifier: x, y and z only. */
  datatype Point = Point(x: real, y: real, z: real)

  /** The gesture-to-text table: each gesture's Korean numeral. */
  function Text(g: GestureId): (t: string)
    ensures |t| == 1
    ensures ' ' !in t
  {
    match g
    case KSL_1 => "일"
    case KSL_2 => "이"
    case KSL_3 => "삼"
    case KSL_4 => "사"
    case KSL_5 => "오"
  }

  /** Reads a text back as a gesture: the inverse of Text. */
  function GestureOfText(t: string): (g: Option<GestureId>)
    ensures g.Some? ==> Text(g.value) == t
    ensures g.None? ==> forall h :: Text(h) != t
  {
    if t == "일" then Some(KSL_1)
    else if t == "이" then Some(KSL_2)
    else if t == "삼" then Some(KSL_3)
    else if t == "사" then Some(KSL_4)
    else if t == "오" then Some(KSL_5)
    else None
  }

  /** Every gesture has a text and that text reads back as the same gesture. */
  lemma GestureOfTextInvertsText(g: GestureId)
    ensures GestureOfText(Text(g)) == Some(g)
  {
  }

  /** The five texts are pairwise distinct, so the text determines the gesture. */
  lemma TextInjective(a: GestureId, b: GestureId)
    ensures Text(a) == Text(b) ==> a == b
  {
    GestureOfTextInvertsText(a);
    GestureOfTextInvertsText(b);
  }

  /** The enumeration has exactly five values, each listed once. */
  lemma ExactlyFiveGestures(g: GestureId)
    ensures |AllGestures| == 5
    ensures g in AllGestures
    ensures forall i, j :: 0 <= i < j < |AllGestures| ==> AllGestures[i] != AllGestures[j]
  {
  }
}
