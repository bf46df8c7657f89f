/** The C++ JSON helpers: `escapeJson`, which backslash-escapes five characters (quote,
    backslash, newline, carriage return, tab) and copies every other character, other
    control characters included, unchanged; and the field rules of
    `itemToJson`. `Unescape` is the reading side a JSON parser applies, used here as
    the inverse that the escaping must round-trip through. */
module CoreJson {
  import opened CoreInventory

  /** The characters `escapeJson` rewrites: quote, backslash, newline, carriage return, tab. */
  predicate IsSpecial(c: char)
  {
    c == '"' || c == '\\' || c == '\n' || c == '\r' || c == '\t'
  }

  /** What one character becomes: a backslash and a letter for the control characters,
      a backslash and the character itself for quote and backslash, the character otherwise. */
  function EscapeChar(c: char): (r: string)
    ensures IsSpecial(c) ==> |r| == 2 && r[0] == '\\'
    ensures !IsSpecial(c) ==> r == [c]
    ensures forall i :: 0 <= i < |r| ==> r[i] != '\n' && r[i] != '\r' && r[i] != '\t'
  {
    if c == '"' then "\\\""
    else if c == '\\' then "\\\\"
    else if c == '\n' then "\\n"
    else if c == '\r' then "\\r"
    else if c == '\t' then "\\t"
    else [c]
  }

  /** The escaped form of a whole string: every character's escape, in order. */
  function Escaped(s: string): (r: string)
  {
    if s == [] then [] else EscapeChar(s[0]) + Escaped(s[1..])
  }

  /** Number of characters of `s` that `escapeJson` rewrites. */
  function SpecialCount(s: string): (n: nat)
    ensures n <= |s|
  {
    if s == [] then 0 else (if IsSpecial(s[0]) then 1 else 0) + SpecialCount(s[1..])
  }

  /** Escaping works character by character, so it distributes over concatenation. */
  lemma {:induction false} EscapedAppend(a: string, b: string)
    ensures Escaped(a + b) == Escaped(a) + Escaped(b)
  {
    if a == [] {
      assert a + b == b;
    } else {
      assert (a + b)[1..] == a[1..] + b;
      EscapedAppend(a[1..], b);
    }
  }

  /** `escapeJson`: build the output one input character at a time. */
  method EscapeJson(s: string) returns (out: string)
    ensures out == Escaped(s)
  {
    out := [];
    for i := 0 to |s|
      invariant out == Escaped(s[..i])
    {
      assert Escaped([s[i]]) == EscapeChar(s[i]) + Escaped([]);
      EscapedAppend(s[..i], [s[i]]);
      assert s[..i + 1] == s[..i] + [s[i]];
      if s[i] == '"' {
        out := out + "\\\"";
      } else if s[i] == '\\' {
        out := out + "\\\\";
      } else if s[i] == '\n' {
        out := out + "\\n";
      } else if s[i] == '\r' {
        out := out + "\\r";
      } else if s[i] == '\t' {
        out := out + "\\t";
      } else {
        out := out + [s[i]];
      }
    }
    assert s[..|s|] == s;
  }

  /** The output is the input's length plus one for every rewritten character. */
  lemma {:induction false} EscapedLength(s: string)
    ensures |Escaped(s)| == |s| + SpecialCount(s)
  {
    if s != [] {
      EscapedLength(s[1..]);
    }
  }

  /** A string with nothing to escape comes out unchanged. */
  lemma {:induction false} EscapedPlain(s: string)
    requires forall i :: 0 <= i < |s| ==> !IsSpecial(s[i])
    ensures Escaped(s) == s
  {
    if s != [] {
      EscapedPlain(s[1..]);
    }
  }

  /** The output never holds a raw newline, carriage return or tab. */
  lemma {:induction false} EscapedHasNoControl(s: string)
    ensures forall i :: 0 <= i < |Escaped(s)| ==>
      Escaped(s)[i] != '\n' && Escaped(s)[i] != '\r' && Escaped(s)[i] != '\t'
  {
    if s != [] {
      EscapedHasNoControl(s[1..]);
      var h := EscapeChar(s[0]);
      var t := Escaped(s[1..]);
      assert forall i :: |h| <= i < |h| + |t| ==> (h + t)[i] == t[i - |h|];
    }
  }

  /** The character a backslash escape stands for. */
  function Unescaped(c: char): (r: char)
  {
    if c == 'n' then '\n' else if c == 'r' then '\r' else if c == 't' then '\t' else c
  }

  /** Reading a JSON string body back: a backslash and the next character decode to one
      character; any other character stands for itself. */
  function Unescape(t: string): (r: string)
    decreases |t|
  {
    if t == [] then []
    else if t[0] == '\\' && |t| >= 2 then [Unescaped(t[1])] + Unescape(t[2..])
    else [t[0]] + Unescape(t[1..])
  }

  /** Reading back the escape of one character gives that character. */
  lemma UnescapeOne(c: char, rest: string)
    ensures Unescape(EscapeChar(c) + rest) == [c] + Unescape(rest)
  {
    var t := EscapeChar(c) + rest;
    if IsSpecial(c) {
      assert t[0] == '\\' && t[2..] == rest;
    } else {
      assert t[1..] == rest;
    }
  }

  /** Escaping loses nothing: reading the output back gives the input. */
  lemma {:induction false} EscapeRoundTrip(s: string)
    ensures Unescape(Escaped(s)) == s
  {
    if s != [] {
      EscapeRoundTrip(s[1..]);
      UnescapeOne(s[0], Escaped(s[1..]));
    }
  }

  /** The fields `itemToJson` writes (the price is written too, through fixed-point
      formatting that this model leaves out, so it is carried as the value). */
  datatype JsonItem = JsonItem(id: int, name: string, category: string, price: real,
                               quantity: int, perishable: bool, expiry: string)

  /** `itemToJson`: name and category escaped, the perishable flag from the item's kind,
      and the expiry date only for a perishable item. */
  function ItemJson(it: Item): (j: JsonItem)
    reads it
    ensures j.id == it.id && j.quantity == it.quantity && j.price == it.price
    ensures Unescape(j.name) == it.name && Unescape(j.category) == it.category
    ensures j.perishable <==> it.kind.Perishable?
    ensures it.kind.Perishable? ==> j.expiry == it.kind.expiry
    ensures it.kind.NonPerishable? ==> j.expiry == ""
  {
    EscapeRoundTrip(it.name);
    EscapeRoundTrip(it.category);
    JsonItem(it.id, Escaped(it.name), Escaped(it.category), it.price, it.quantity,
             it.IsPerishable(), if it.IsPerishable() then it.ExpiryDate() else "")
  }
}
