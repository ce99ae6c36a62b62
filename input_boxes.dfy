/** The property-edit text box (`InputBox`) and its event handler: a click
    activates or deactivates the box, and an active box takes Return,
    Backspace and characters that pass the numeric filter. */
module InputBoxes {
  /** The filter string: a key's text is accepted when it occurs in it. */
  const ALLOWED: string := "0123456789.-"

  datatype Key = Return | Backspace | OtherKey

  /** The events the handler looks at. A mouse press carries whether it hit
      the box's rectangle; a key press carries the key and its text. */
  datatype Event =
    | MouseDown(inside: bool)
    | KeyDown(key: Key, unicode: string)
    | OtherEvent

  /** Python's `needle in hay` on strings: `needle` is a substring of `hay`
      (so the empty string is always in). */
  predicate Occurs(needle: string, hay: string) {
    exists k :: 0 <= k <= |hay| && OccursAt(needle, hay, k)
  }

  predicate OccursAt(needle: string, hay: string, k: int) {
    0 <= k <= |hay| - |needle| && hay[k..k + |needle|] == needle
  }

  /** The text after a key press in an active box. */
  function EditedText(text: string, key: Key, unicode: string): (r: string)
    ensures key == Return ==> r == text
    ensures key == Backspace && text == [] ==> r == []
    ensures key == Backspace && text != [] ==> r + [text[|text| - 1]] == text
    ensures key == OtherKey && Occurs(unicode, ALLOWED) ==> r == text + unicode
    ensures key == OtherKey && !Occurs(unicode, ALLOWED) ==> r == text
  {
    match key
    case Return => text
    case Backspace => if |text| == 0 then text else text[..|text| - 1]
    case OtherKey => if Occurs(unicode, ALLOWED) then text + unicode else text
  }

  /** For a single character the filter accepts exactly the digits, '.' and '-'. */
  lemma {:induction false} FilterOnOneCharacter(c: char)
    ensures Occurs([c], ALLOWED) <==> c in ALLOWED
  {
    if c in ALLOWED {
      var k :| 0 <= k < |ALLOWED| && ALLOWED[k] == c;
      assert OccursAt([c], ALLOWED, k);
    }
    if Occurs([c], ALLOWED) {
      var k :| 0 <= k <= |ALLOWED| && OccursAt([c], ALLOWED, k);
      assert ALLOWED[k..k + 1][0] == c;
    }
  }

  /** Everything the filter accepts is made of filter characters; so a box
      whose text holds only those characters keeps that property under any
      key press. */
  lemma {:induction false} EditKeepsNumericText(text: string, key: Key, unicode: string)
    requires forall c :: c in text ==> c in ALLOWED
    ensures forall c :: c in EditedText(text, key, unicode) ==> c in ALLOWED
  {
    var r := EditedText(text, key, unicode);
    if key == OtherKey && Occurs(unicode, ALLOWED) {
      var k :| 0 <= k <= |ALLOWED| && OccursAt(unicode, ALLOWED, k);
      assert ALLOWED[k..k + |unicode|] == unicode;
      forall c | c in unicode ensures c in ALLOWED {
        var j :| 0 <= j < |unicode| && unicode[j] == c;
        assert ALLOWED[k..k + |unicode|][j] == c;
      }
    } else if key == Backspace && text != [] {
      forall c | c in r ensures c in ALLOWED {
        assert c in r + [text[|text| - 1]];
      }
    }
  }

  class InputBox {
    var text: string
    var isActive: bool
    /** Which body field the box edits ("stage", "mass", "pos_x", ...). */
    const propertyName: string

    constructor (text: string, propertyName: string)
      ensures this.text == text && this.propertyName == propertyName && !isActive
    {
      this.text := text;
      this.propertyName := propertyName;
      isActive := false;
    }

    /** `handle_event`: returns true where the program returns 'enter'. */
    method HandleEvent(ev: Event) returns (enter: bool)
      modifies this
      ensures isActive == if ev.MouseDown? then ev.inside else old(isActive)
      ensures enter <==> ev.KeyDown? && old(isActive) && ev.key == Return
      ensures text == if ev.KeyDown? && old(isActive) then EditedText(old(text), ev.key, ev.unicode) else old(text)
    {
      if ev.MouseDown? {
        isActive := ev.inside;
      }
      enter := false;
      if ev.KeyDown? && isActive {
        match ev.key
        case Return =>
          enter := true;
        case Backspace =>
          if |text| > 0 {
            text := text[..|text| - 1];
          }
        case OtherKey =>
          if Occurs(ev.unicode, ALLOWED) {
            text := text + ev.unicode;
          }
      }
    }
  }
}
