/**
  Normalisation of listener events into binding tokens (hellmacro.py:1137 for keys,
  hellmacro.py:1234 for side mouse buttons). A key token is `str(key)` with every "Key."
  and every quote removed and then lower-cased; a button token is `str(button)` with
  "Button." removed and then lower-cased.
*/
module Tokens {

  /** Python's `s.replace(pat, "")`: one left-to-right pass removing non-overlapping occurrences. */
  function Replace(s: string, pat: string): (r: string)
    requires pat != []
    decreases |s|
    ensures |r| <= |s|
  {
    if |s| < |pat| then s
    else if s[..|pat|] == pat then Replace(s[|pat|..], pat)
    else [s[0]] + Replace(s[1..], pat)
  }

  /** Removing a one-character pattern leaves no occurrence of that character. */
  lemma {:induction false} ReplaceRemovesChar(s: string, c: char)
    ensures c !in Replace(s, [c])
    decreases |s|
  {
    if |s| >= 1 {
      if s[..1] == [c] {
        ReplaceRemovesChar(s[1..], c);
      } else {
        ReplaceRemovesChar(s[1..], c);
        assert s[0] != c;
      }
    }
  }

  /** A string that never contains the first character of the pattern is left as it is. */
  lemma {:induction false} ReplaceWithoutMatch(s: string, pat: string)
    requires pat != [] && pat[0] !in s
    ensures Replace(s, pat) == s
    decreases |s|
  {
    if |s| >= |pat| {
      assert s[..|pat|][0] == s[0];
      ReplaceWithoutMatch(s[1..], pat);
      assert [s[0]] + s[1..] == s;
    }
  }

  predicate IsUpper(c: char) { 'A' <= c <= 'Z' }

  function LowerChar(c: char): (r: char)
    ensures !IsUpper(r)
    ensures !IsUpper(c) ==> r == c
  {
    if IsUpper(c) then (c as int + 32) as char else c
  }

  /** Python's `s.lower()` on the ASCII letters. */
  function Lower(s: string): (r: string)
    ensures |r| == |s|
    ensures forall i :: 0 <= i < |r| ==> r[i] == LowerChar(s[i])
    ensures forall i :: 0 <= i < |r| ==> !IsUpper(r[i])
  {
    seq(|s|, i requires 0 <= i < |s| => LowerChar(s[i]))
  }

  /** The binding token of a key event, given the text of `str(key)`. */
  function NormalizeKey(raw: string): (token: string)
    ensures '\'' !in token
    ensures forall i :: 0 <= i < |token| ==> !IsUpper(token[i])
    ensures |token| <= |raw|
  {
    var unquoted := Replace(Replace(raw, "Key."), "'");
    ReplaceRemovesChar(Replace(raw, "Key."), '\'');
    Lower(unquoted)
  }

  /** Normalising a token again changes nothing: tokens are fixed points of the normalisation. */
  lemma NormalizeKeyIdempotent(raw: string)
    ensures NormalizeKey(NormalizeKey(raw)) == NormalizeKey(raw)
  {
    var t := NormalizeKey(raw);
    assert IsUpper('K');
    assert 'K' !in t;
    ReplaceWithoutMatch(t, "Key.");
    ReplaceWithoutMatch(t, "'");
    assert Lower(t) == t;
  }

  /**
    A special key `Key.<name>` whose name has no capital letter and no quote normalises to its
    name; this is how `Key.esc`, `Key.enter` and `Key.tab` become the reserved tokens.
  */
  lemma SpecialKeyToken(name: string)
    requires '\'' !in name && forall i :: 0 <= i < |name| ==> !IsUpper(name[i])
    ensures NormalizeKey("Key." + name) == name
  {
    var raw := "Key." + name;
    assert raw[..4] == "Key." && raw[4..] == name;
    assert IsUpper('K');
    assert 'K' !in name;
    ReplaceWithoutMatch(name, "Key.");
    assert Replace(raw, "Key.") == name;
    ReplaceWithoutMatch(name, "'");
    assert Lower(name) == name;
  }

  /**
    A character key, whose `str` is the character between quotes, gives that character
    lower-cased; for example `'A'` gives "a".
  */
  lemma CharKeyToken(c: char)
    requires c != '\''
    ensures NormalizeKey("'" + [c] + "'") == Lower([c])
  {
    var raw := "'" + [c] + "'";
    assert raw[..1] == "'" && raw[1..] == [c] + "'";
    assert ([c] + "'")[..1][0] == c && ([c] + "'")[1..] == "'";
    assert "'"[..1] == "'" && "'"[1..] == [];
    assert Replace("'", "'") == [];
    assert Replace([c] + "'", "'") == [c];
    assert Replace(raw, "'") == [c];
    assert Replace(raw, "Key.") == raw;
  }

  /**
    Keys refused as a binding during capture (hellmacro.py:1140); each is the token of the
    special key of the same name.
  */
  predicate IsReservedKey(token: string)
    ensures IsReservedKey(token) ==> NormalizeKey("Key." + token) == token
  {
    if token in ["esc", "enter", "tab"] then
      SpecialKeyToken(token);
      true
    else false
  }

  /** The mouse buttons pynput reports. */
  datatype MouseButton = Left | Right | Middle | X1 | X2

  /** `str(button)` for each button. */
  function ButtonName(b: MouseButton): string {
    match b
    case Left => "Button.left"
    case Right => "Button.right"
    case Middle => "Button.middle"
    case X1 => "Button.x1"
    case X2 => "Button.x2"
  }

  /** The binding token of a side-button press. */
  function ButtonToken(b: MouseButton): (token: string)
    ensures forall i :: 0 <= i < |token| ==> !IsUpper(token[i])
  {
    Lower(Replace(ButtonName(b), "Button."))
  }

  /** The two side buttons become the tokens "x1" and "x2", which are never reserved keys. */
  lemma SideButtonTokens()
    ensures ButtonToken(X1) == "x1" && ButtonToken(X2) == "x2"
    ensures !IsReservedKey(ButtonToken(X1)) && !IsReservedKey(ButtonToken(X2))
  {
    assert "Button.x1"[..7] == "Button.";
    assert "Button.x1"[7..] == "x1";
    assert Replace("x1", "Button.") == "x1";
    assert Lower("x1") == "x1";
    assert "Button.x2"[..7] == "Button.";
    assert "Button.x2"[7..] == "x2";
    assert Replace("x2", "Button.") == "x2";
    assert Lower("x2") == "x2";
  }
}
