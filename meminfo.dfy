/**
 * The /proc/meminfo line parser of an alarm (getMemoryByIdentifier): scan
 * the lines in order, stop at the first line matching
 * `^name:\s+(\d+)\skB$` and answer its digit field, or 0 when no line
 * matches. The file is given as the sequence of lines fgets would return,
 * each still carrying its line feed.
 */
module Meminfo {

  datatype Option<T> = None | Some(value: T)

  /** The characters `\s` matches: space, tab, line feed, carriage return, vertical tab, form feed. */
  predicate IsSpace(c: char)
  {
    c == ' ' || c == '\t' || c == '\n' || c == '\r' || c == '\U{000B}' || c == '\U{000C}'
  }

  /** The characters `\d` matches. */
  predicate IsDigit(c: char)
  {
    '0' <= c <= '9'
  }

  /** A non-empty run of decimal digits, as `(\d+)` captures. */
  predicate Numeral(s: string)
  {
    |s| >= 1 && forall k :: 0 <= k < |s| ==> IsDigit(s[k])
  }

  /** What `$` accepts after the pattern: the end of the line, or one final line feed before it. */
  predicate IsLineEnd(s: string)
  {
    s == "" || s == "\n"
  }

  /** A line that stops the `while ($line = fgets(...))` loop: PHP treats "" and "0" as false. */
  predicate Falsy(line: string)
  {
    line == "" || line == "0"
  }

  /** The length of the longest prefix of `s` made of whitespace. */
  function Spaces(s: string): (n: nat)
    ensures n <= |s|
    ensures forall k :: 0 <= k < n ==> IsSpace(s[k])
    ensures n < |s| ==> !IsSpace(s[n])
    decreases |s|
  {
    if s != [] && IsSpace(s[0]) then 1 + Spaces(s[1..]) else 0
  }

  /** The length of the longest prefix of `s` made of decimal digits. */
  function DigitRun(s: string): (n: nat)
    ensures n <= |s|
    ensures forall k :: 0 <= k < n ==> IsDigit(s[k])
    ensures n < |s| ==> !IsDigit(s[n])
    decreases |s|
  {
    if s != [] && IsDigit(s[0]) then 1 + DigitRun(s[1..]) else 0
  }

  /** What `\skB$` accepts: one whitespace character, "kB", then the end of the line. */
  predicate IsUnit(tail: string)
  {
    3 <= |tail| && IsSpace(tail[0]) && tail[1..3] == "kB" && IsLineEnd(tail[3..])
  }

  /** The part of a line after the colon, as `\s+(\d+)\skB$` reads it: the digit field, if it matches. */
  function Field(rest: string): (r: Option<string>)
    ensures r.Some? ==> Numeral(r.value)
  {
    var w := Spaces(rest);
    var d := DigitRun(rest[w..]);
    if 1 <= w && 1 <= d && IsUnit(rest[w + d..]) then Some(rest[w..w + d]) else None
  }

  /**
   * preg_match of `^name:\s+(\d+)\skB$` against one line: the captured digit
   * field when the line matches, None otherwise. The key is matched
   * literally. Whitespace cannot be a digit, so `\s+` and `(\d+)` each take
   * a maximal run and the match, when there is one, is unique.
   */
  function Capture(line: string, name: string): (r: Option<string>)
    ensures r.Some? ==> Numeral(r.value)
  {
    var head := name + ":";
    if |line| < |head| || line[..|head|] != head then None else Field(line[|head|..])
  }

  /** The shape of a line the pattern describes: key, colon, whitespace, digits, one whitespace, "kB", end. */
  ghost predicate WellFormed(spaces: string, digits: string, sep: char, end: string)
  {
    && |spaces| >= 1 && (forall k :: 0 <= k < |spaces| ==> IsSpace(spaces[k]))
    && |digits| >= 1 && (forall k :: 0 <= k < |digits| ==> IsDigit(digits[k]))
    && IsSpace(sep) && IsLineEnd(end)
  }

  /** The text after the digits: the separator, "kB" and the line end. */
  function Unit(sep: char, end: string): string
  {
    [sep] + "kB" + end
  }

  /** The line assembled from its parts. */
  function Line(name: string, spaces: string, digits: string, sep: char, end: string): string
  {
    (name + ":") + (spaces + (digits + Unit(sep, end)))
  }

  /** A whitespace run followed by something that does not start with whitespace is measured exactly. */
  lemma {:induction false} SpacesOf(spaces: string, more: string)
    requires forall k :: 0 <= k < |spaces| ==> IsSpace(spaces[k])
    requires more != [] && !IsSpace(more[0])
    ensures Spaces(spaces + more) == |spaces|
  {
    if spaces != [] {
      assert (spaces + more)[1..] == spaces[1..] + more;
      SpacesOf(spaces[1..], more);
    }
  }

  /** A digit run followed by something that does not start with a digit is measured exactly. */
  lemma {:induction false} DigitRunOf(digits: string, more: string)
    requires forall k :: 0 <= k < |digits| ==> IsDigit(digits[k])
    requires more != [] && !IsDigit(more[0])
    ensures DigitRun(digits + more) == |digits|
  {
    if digits != [] {
      assert (digits + more)[1..] == digits[1..] + more;
      DigitRunOf(digits[1..], more);
    }
  }

  /** The text after the colon of a described line yields its digits. */
  lemma FieldComplete(spaces: string, digits: string, sep: char, end: string)
    requires WellFormed(spaces, digits, sep, end)
    ensures Field(spaces + (digits + Unit(sep, end))) == Some(digits)
  {
    var u := Unit(sep, end);
    var rest := spaces + (digits + u);
    assert u[0] == sep && u[1..3] == "kB" && u[3..] == end;
    SpacesOf(spaces, digits + u);
    assert rest[|spaces|..] == digits + u;
    DigitRunOf(digits, u);
    assert rest[|spaces|..|spaces| + |digits|] == digits;
    assert rest[|spaces| + |digits|..] == u;
  }

  /** Every line of the described shape matches, and the captured field is its digits. */
  lemma CaptureComplete(name: string, spaces: string, digits: string, sep: char, end: string)
    requires WellFormed(spaces, digits, sep, end)
    ensures Capture(Line(name, spaces, digits, sep, end), name) == Some(digits)
  {
    var head, rest := name + ":", spaces + (digits + Unit(sep, end));
    assert (head + rest)[..|head|] == head && (head + rest)[|head|..] == rest;
    FieldComplete(spaces, digits, sep, end);
  }

  /** Every text after the colon that yields a field has the described shape around it. */
  lemma FieldSound(rest: string)
    requires Field(rest).Some?
    ensures exists spaces, sep, end ::
      WellFormed(spaces, Field(rest).value, sep, end) && rest == spaces + (Field(rest).value + Unit(sep, end))
  {
    var w := Spaces(rest);
    var d := DigitRun(rest[w..]);
    var tail := rest[w + d..];
    var spaces, digits, sep, end := rest[..w], rest[w..w + d], tail[0], tail[3..];
    assert WellFormed(spaces, digits, sep, end);
    assert tail == Unit(sep, end);
    assert rest == spaces + (digits + tail);
  }

  /** Every line that matches has the described shape, with the captured field as its digits. */
  lemma CaptureSound(line: string, name: string)
    requires Capture(line, name).Some?
    ensures exists spaces, sep, end ::
      WellFormed(spaces, Capture(line, name).value, sep, end) &&
      line == Line(name, spaces, Capture(line, name).value, sep, end)
  {
    var head := name + ":";
    var rest := line[|head|..];
    FieldSound(rest);
    var spaces, sep, end :| WellFormed(spaces, Field(rest).value, sep, end) && rest == spaces + (Field(rest).value + Unit(sep, end));
    assert line == head + rest;
  }

  /**
   * The key is anchored at the start of the line and must be followed
   * immediately by the colon: a line for another key never answers for
   * `name`, even when one key extends or contains the other.
   */
  lemma OtherKeyNeverMatches(key: string, name: string, spaces: string, digits: string, sep: char, end: string)
    requires key != name && ':' !in key && ':' !in name
    ensures Capture(Line(key, spaces, digits, sep, end), name) == None
  {
    var line := Line(key, spaces, digits, sep, end);
    var head := name + ":";
    assert line[..|key| + 1] == key + ":";
    if |name| < |key| {
      assert line[|name|] == key[|name|] != ':' == head[|name|];
    } else if |key| < |name| {
      assert line[|key|] == ':' != name[|key|] == head[|key|];
    } else {
      assert line[..|key|] == key != name == head[..|name|];
    }
  }

  /**
   * The loop of getMemoryByIdentifier as a function: the digit field of the
   * first matching line, None when the lines run out or a falsy line comes
   * first.
   */
  function Scan(lines: seq<string>, name: string): (r: Option<string>)
    ensures r.Some? ==> Numeral(r.value)
    decreases |lines|
  {
    if lines == [] || Falsy(lines[0]) then None
    else
      match Capture(lines[0], name)
      case Some(digits) => Some(digits)
      case None => Scan(lines[1..], name)
  }

  /** A line the loop reads past: neither falsy nor matching. */
  predicate Passes(line: string, name: string)
  {
    !Falsy(line) && Capture(line, name) == None
  }

  /** Line i is the one the loop stops at with a match: it matches and every earlier line passes. */
  ghost predicate FoundAt(lines: seq<string>, name: string, i: int)
  {
    && 0 <= i < |lines| && !Falsy(lines[i]) && Capture(lines[i], name).Some?
    && forall j :: 0 <= j < i ==> Passes(lines[j], name)
  }

  /**
   * The first matching line wins: when line i matches and no earlier line
   * matches or stops the loop, its field is the answer, whatever follows.
   */
  lemma {:induction false} FirstMatchWins(lines: seq<string>, name: string, i: int)
    requires FoundAt(lines, name, i)
    ensures Scan(lines, name) == Capture(lines[i], name)
  {
    if i > 0 {
      assert Passes(lines[0], name);
      assert FoundAt(lines[1..], name, i - 1) by {
        forall j | 0 <= j < i - 1 ensures Passes(lines[1..][j], name) {
          assert Passes(lines[j + 1], name);
        }
      }
      FirstMatchWins(lines[1..], name, i - 1);
    }
  }

  /**
   * Conversely, an answer always comes from a matching line that every
   * earlier line neither matched nor stopped the loop before.
   */
  lemma {:induction false} ScanFound(lines: seq<string>, name: string)
    requires Scan(lines, name).Some?
    ensures exists i :: FoundAt(lines, name, i) && Capture(lines[i], name) == Scan(lines, name)
  {
    if Capture(lines[0], name) == None {
      ScanFound(lines[1..], name);
      var i :| FoundAt(lines[1..], name, i) && Capture(lines[1..][i], name) == Scan(lines[1..], name);
      assert lines[1..][i] == lines[i + 1];
      forall j | 0 <= j < i + 1 ensures Passes(lines[j], name) {
        if j > 0 {
          assert lines[j] == lines[1..][j - 1];
        }
      }
      assert FoundAt(lines, name, i + 1);
    } else {
      assert FoundAt(lines, name, 0);
    }
  }

  /** When no line matches, there is no answer. */
  lemma {:induction false} NoMatchIsNone(lines: seq<string>, name: string)
    requires forall j :: 0 <= j < |lines| ==> Capture(lines[j], name) == None
    ensures Scan(lines, name) == None
  {
    if lines != [] && !Falsy(lines[0]) {
      NoMatchIsNone(lines[1..], name);
    }
  }

  /** A falsy line ends the scan: nothing after it is read. */
  lemma {:induction false} StopsAtFalsy(lines: seq<string>, name: string, k: int)
    requires 0 <= k < |lines| && Falsy(lines[k])
    ensures Scan(lines, name) == Scan(lines[..k], name)
  {
    if k > 0 && !Falsy(lines[0]) && Capture(lines[0], name) == None {
      StopsAtFalsy(lines[1..], name, k - 1);
      assert lines[1..][..k - 1] == lines[..k][1..];
    }
  }

  /** The number a digit string denotes. */
  function Value(digits: string): nat
    requires forall k :: 0 <= k < |digits| ==> IsDigit(digits[k])
    decreases |digits|
  {
    if digits == [] then 0
    else
      var n := |digits| - 1;
      Value(digits[..n]) * 10 + DigitValue(digits[n])
  }

  /** The value of one decimal digit. */
  function DigitValue(c: char): (v: nat)
    requires IsDigit(c)
    ensures v < 10
  {
    c as int - '0' as int
  }

  /** The decimal rendering of a number, as the kernel prints it. */
  function Render(n: nat): (s: string)
    ensures |s| >= 1 && forall k :: 0 <= k < |s| ==> IsDigit(s[k])
  {
    if n < 10 then [('0' as int + n) as char]
    else Render(n / 10) + [('0' as int + n % 10) as char]
  }

  /** Reading a rendered number back gives the number. */
  lemma {:induction false} ValueOfRender(n: nat)
    ensures Value(Render(n)) == n
  {
    var s := Render(n);
    if n >= 10 {
      ValueOfRender(n / 10);
      assert s[..|s| - 1] == Render(n / 10);
    }
  }

  /** What getMemoryByIdentifier answers for a scan result: the field's value, or 0 without a match. */
  function Reading(found: Option<string>): nat
    requires found.Some? ==> Numeral(found.value)
  {
    match found
    case Some(digits) => Value(digits)
    case None => 0
  }

  /** The kernel's line for `name` with amount n is read back as n. */
  lemma ReadsRenderedAmount(lines: seq<string>, name: string, i: int, spaces: string, n: nat, sep: char, end: string)
    requires 0 <= i < |lines| && WellFormed(spaces, Render(n), sep, end)
    requires lines[i] == Line(name, spaces, Render(n), sep, end)
    requires forall j :: 0 <= j < i ==> Passes(lines[j], name)
    ensures Reading(Scan(lines, name)) == n
  {
    CaptureComplete(name, spaces, Render(n), sep, end);
    assert !Falsy(lines[i]);
    FirstMatchWins(lines, name, i);
    ValueOfRender(n);
  }

  /**
   * getMemoryByIdentifier over the given lines: read line by line until a
   * falsy line or the end, and stop at the first line the pattern matches.
   */
  method MemoryByIdentifier(lines: seq<string>, name: string) returns (mem: nat)
    ensures mem == Reading(Scan(lines, name))
  {
    mem := 0;
    var i := 0;
    while i < |lines| && !Falsy(lines[i])
      invariant 0 <= i <= |lines|
      invariant Scan(lines, name) == Scan(lines[i..], name)
    {
      var pieces := Capture(lines[i], name);
      if pieces.Some? {
        assert Scan(lines[i..], name) == pieces;
        mem := Reading(pieces);
        return;
      }
      assert lines[i..][1..] == lines[i + 1..];
      i := i + 1;
    }
  }

  /** getTotalMemory: the MemTotal line's amount in kB. */
  method TotalMemory(lines: seq<string>) returns (mem: nat)
    ensures mem == Reading(Scan(lines, "MemTotal"))
  {
    mem := MemoryByIdentifier(lines, "MemTotal");
  }

  /** getFreeMemory: the MemFree line's amount in kB. */
  method FreeMemory(lines: seq<string>) returns (mem: nat)
    ensures mem == Reading(Scan(lines, "MemFree"))
  {
    mem := MemoryByIdentifier(lines, "MemFree");
  }
}
