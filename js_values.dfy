/** The few pieces of JavaScript value semantics the application relies on:
    optional string members and their truthiness, the `||` operator on them,
    JSON objects of string members and `String.prototype.trim`; and the
    lines of a multi-line template literal, which is those lines joined with
    newlines and can be split back into them to say what each line holds. */
module JsValues {

  datatype Option<+T> = None | Some(value: T)

  /** A member that may be absent (`undefined` or `null`) or hold a string. */
  type Field = Option<string>

  /** A JSON object whose members are strings, as a request body arrives. */
  type JsonObject = map<string, string>

  /** `obj.key`: absent keys read as `undefined`. */
  function Get(obj: JsonObject, key: string): Field {
    if key in obj then Some(obj[key]) else None
  }

  /** JavaScript truthiness of an optional string: `undefined`, `null` and
      `""` are falsy, every other string is truthy. */
  predicate Truthy(f: Field) {
    f.Some? && f.value != ""
  }

  /** `a || b`: the first operand when it is truthy, otherwise the second. */
  function Or(a: Field, b: Field): (r: Field)
    ensures Truthy(r) <==> Truthy(a) || Truthy(b)
    ensures Truthy(a) ==> r == a
    ensures !Truthy(a) ==> r == b
  {
    if Truthy(a) then a else b
  }

  /** `f || fallback` with a non-empty string literal as fallback, as it is
      used inside template literals. */
  function OrDefault(f: Field, fallback: string): (r: string)
    requires fallback != ""
    ensures r != ""
    ensures Truthy(f) ==> r == f.value
    ensures !Truthy(f) ==> r == fallback
  {
    if Truthy(f) then f.value else fallback
  }

  // ---------------------------------------------------------------------
  // String.prototype.trim

  /** The characters `trim` removes: ECMAScript WhiteSpace and LineTerminator. */
  predicate IsWhitespace(c: char) {
    || c == '\t' || c == '\n' || c == '\U{000B}' || c == '\U{000C}' || c == '\r'
    || c == ' ' || c == '\U{00A0}' || c == '\U{1680}'
    || ('\U{2000}' <= c <= '\U{200A}')
    || c == '\U{2028}' || c == '\U{2029}' || c == '\U{202F}' || c == '\U{205F}'
    || c == '\U{3000}' || c == '\U{FEFF}'
  }

  predicate AllWhitespace(s: string) {
    forall i :: 0 <= i < |s| ==> IsWhitespace(s[i])
  }

  /** Drops leading whitespace: the result is a suffix of `s`, everything
      dropped is whitespace, and the result does not start with whitespace. */
  function TrimStart(s: string): (r: string)
    ensures |r| <= |s| && r == s[|s| - |r|..]
    ensures AllWhitespace(s[..|s| - |r|])
    ensures r == [] || !IsWhitespace(r[0])
  {
    if s != [] && IsWhitespace(s[0]) then TrimStart(s[1..]) else s
  }

  /** Drops trailing whitespace: the result is a prefix of `s`, everything
      dropped is whitespace, and the result does not end with whitespace. */
  function TrimEnd(s: string): (r: string)
    ensures |r| <= |s| && r == s[..|r|]
    ensures AllWhitespace(s[|r|..])
    ensures r == [] || !IsWhitespace(r[|r| - 1])
  {
    if s != [] && IsWhitespace(s[|s| - 1]) then TrimEnd(s[..|s| - 1]) else s
  }

  /** `s.trim()`. */
  function Trim(s: string): (r: string)
    ensures r == [] || (!IsWhitespace(r[0]) && !IsWhitespace(r[|r| - 1]))
    ensures |r| <= |s|
  {
    TrimEnd(TrimStart(s))
  }

  /** Leading whitespace in front of a text that does not start with
      whitespace is exactly what `TrimStart` removes. */
  lemma {:induction false} TrimStartPadded(front: string, text: string)
    requires AllWhitespace(front)
    requires text == [] || !IsWhitespace(text[0])
    ensures TrimStart(front + text) == text
  {
    if front == [] {
      assert front + text == text;
    } else {
      assert (front + text)[0] == front[0];
      assert (front + text)[1..] == front[1..] + text;
      assert AllWhitespace(front[1..]) by {
        forall i | 0 <= i < |front[1..]| ensures IsWhitespace(front[1..][i]) {
          assert front[1..][i] == front[i + 1];
        }
      }
      TrimStartPadded(front[1..], text);
    }
  }

  /** Trailing whitespace after a text that does not end with whitespace is
      exactly what `TrimEnd` removes. */
  lemma {:induction false} TrimEndPadded(text: string, back: string)
    requires AllWhitespace(back)
    requires text == [] || !IsWhitespace(text[|text| - 1])
    ensures TrimEnd(text + back) == text
  {
    if back == [] {
      assert text + back == text;
    } else {
      var s := text + back;
      var shorter := back[..|back| - 1];
      assert s[|s| - 1] == back[|back| - 1];
      assert s[..|s| - 1] == text + shorter;
      assert AllWhitespace(shorter) by {
        forall i | 0 <= i < |shorter| ensures IsWhitespace(shorter[i]) {
          assert shorter[i] == back[i];
        }
      }
      TrimEndPadded(text, shorter);
    }
  }

  /** Trimming a text padded with whitespace gives back exactly the text,
      provided the text neither starts nor ends with whitespace. */
  lemma TrimPadded(front: string, text: string, back: string)
    requires AllWhitespace(front) && AllWhitespace(back)
    requires text != [] && !IsWhitespace(text[0]) && !IsWhitespace(text[|text| - 1])
    ensures Trim(front + text + back) == text
  {
    assert (text + back)[0] == text[0];
    assert front + text + back == front + (text + back);
    TrimStartPadded(front, text + back);
    TrimEndPadded(text, back);
  }

  // ---------------------------------------------------------------------
  // Lines: join("\n") and split("\n")

  /** `lines.join("\n")`. */
  function JoinLines(lines: seq<string>): string {
    if lines == [] then ""
    else if |lines| == 1 then lines[0]
    else lines[0] + "\n" + JoinLines(lines[1..])
  }

  /** `s.split("\n")`: never empty, and no piece holds a newline. */
  function Split(s: string): (r: seq<string>)
    ensures |r| > 0
    ensures forall i :: 0 <= i < |r| ==> '\n' !in r[i]
  {
    if s == [] then [""]
    else if s[0] == '\n' then [""] + Split(s[1..])
    else
      var rest := Split(s[1..]);
      [[s[0]] + rest[0]] + rest[1..]
  }

  predicate NoNewlines(lines: seq<string>) {
    forall i :: 0 <= i < |lines| ==> '\n' !in lines[i]
  }

  /** A label without newlines followed by a value without newlines is one line. */
  lemma LabelledLine(prefix: string, value: string)
    requires forall i :: 0 <= i < |prefix| ==> prefix[i] != '\n'
    requires '\n' !in value
    ensures '\n' !in prefix && '\n' !in prefix + value
  {
  }

  /** Splitting a line followed by a newline peels that line off. */
  lemma {:induction false} SplitAfterLine(line: string, rest: string)
    requires '\n' !in line
    ensures Split(line + "\n" + rest) == [line] + Split(rest)
  {
    if line == [] {
      assert line + "\n" + rest == "\n" + rest;
      assert ("\n" + rest)[1..] == rest;
    } else {
      var s := line + "\n" + rest;
      assert s[0] == line[0] && s[0] != '\n';
      assert s[1..] == line[1..] + "\n" + rest;
      SplitAfterLine(line[1..], rest);
      assert [line[0]] + line[1..] == line;
    }
  }

  /** A text without newlines splits into itself. */
  lemma {:induction false} SplitSingleLine(line: string)
    requires '\n' !in line
    ensures Split(line) == [line]
  {
    if line != [] {
      assert line[0] in line;
      assert '\n' !in line[1..] by {
        forall i | 0 <= i < |line[1..]| ensures line[1..][i] != '\n' {
          assert line[1..][i] == line[i + 1];
        }
      }
      SplitSingleLine(line[1..]);
      assert [line[0]] + line[1..] == line;
    }
  }

  /** Splitting joined lines gives the lines back, when none holds a newline. */
  lemma {:induction false} SplitJoin(lines: seq<string>)
    requires |lines| > 0 && NoNewlines(lines)
    ensures Split(JoinLines(lines)) == lines
  {
    if |lines| == 1 {
      SplitSingleLine(lines[0]);
    } else {
      assert '\n' !in lines[0];
      SplitAfterLine(lines[0], JoinLines(lines[1..]));
      SplitJoin(lines[1..]);
      assert [lines[0]] + lines[1..] == lines;
    }
  }

  /** Joining two non-empty runs of lines puts one newline between them. */
  lemma {:induction false} JoinAppend(a: seq<string>, b: seq<string>)
    requires |a| > 0 && |b| > 0
    ensures JoinLines(a + b) == JoinLines(a) + "\n" + JoinLines(b)
  {
    if |a| == 1 {
      assert (a + b)[0] == a[0] && (a + b)[1..] == b;
    } else {
      assert (a + b)[0] == a[0] && (a + b)[1..] == a[1..] + b;
      JoinAppend(a[1..], b);
    }
  }

  // ---------------------------------------------------------------------
  // Substrings

  /** `sub` occurs in `s` starting at index `k`. */
  predicate OccursAt(sub: string, s: string, k: nat) {
    k + |sub| <= |s| && s[k..k + |sub|] == sub
  }

  /** `s.includes(sub)`. */
  ghost predicate Includes(s: string, sub: string) {
    exists k: nat :: OccursAt(sub, s, k)
  }

  /** Every line occurs in the joined text, whatever the lines hold. */
  lemma {:induction false} JoinIncludesLine(lines: seq<string>, i: nat)
    requires i < |lines|
    ensures Includes(JoinLines(lines), lines[i])
  {
    var s := JoinLines(lines);
    if |lines| == 1 {
      assert OccursAt(lines[0], s, 0);
    } else if i == 0 {
      assert s[..|lines[0]|] == lines[0];
      assert OccursAt(lines[0], s, 0);
    } else {
      JoinIncludesLine(lines[1..], i - 1);
      var tail := JoinLines(lines[1..]);
      var k: nat :| OccursAt(lines[1..][i - 1], tail, k);
      var off := |lines[0]| + 1;
      assert s == (lines[0] + "\n") + tail;
      assert s[off + k..off + k + |lines[i]|] == tail[k..k + |lines[i]|];
      assert OccursAt(lines[i], s, off + k);
    }
  }
}
