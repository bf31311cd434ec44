/** A line scanner for `text/event-stream`, standing in for the third-party stream scanner
    the parser reads from. It follows the event-stream interpretation of section 9.2.6 of the
    HTML Living Standard, restricted to `\n` line endings: a blank line ends an event, a line
    starting with `:` is a comment, a field is split at its first `:` and one leading space is
    dropped from the value, and an event still open at the end of the text is discarded. */
module SseScanner {
  import Strings

  datatype Field = Field(name: string, value: string)

  /** The complete (newline-terminated) lines of a text; text after the last newline is not
      a line yet. */
  function Lines(s: string): seq<string>
    decreases |s|
  {
    var k := Strings.IndexOf(s, '\n');
    if k == |s| then [] else [s[..k]] + Lines(s[k + 1..])
  }

  /** A field line: the name up to the first colon, and the rest without one leading space;
      a line with no colon is a name with an empty value. */
  function ParseField(line: string): Field
  {
    var k := Strings.IndexOf(line, ':');
    if k == |line| then Field(line, "")
    else
      var v := line[k + 1..];
      Field(line[..k], if |v| > 0 && v[0] == ' ' then v[1..] else v)
  }

  /** Events of a run of lines, `pending` holding the fields of the event still open. */
  function Group(lines: seq<string>, pending: seq<Field>): seq<seq<Field>>
  {
    if |lines| == 0 then []
    else if lines[0] == "" then (if |pending| > 0 then [pending] else []) + Group(lines[1..], [])
    else if lines[0][0] == ':' then Group(lines[1..], pending)
    else Group(lines[1..], pending + [ParseField(lines[0])])
  }

  /** The events of a text, each the list of its fields in order. */
  function Scan(s: string): seq<seq<Field>>
  {
    Group(Lines(s), [])
  }

  /** The empty text has no lines. */
  lemma LinesEmpty()
    ensures Lines("") == []
  {
    assert Strings.IndexOf("", '\n') == 0;
  }

  /** The first occurrence of a character in a text that already contains it is unaffected by
      what follows. */
  lemma IndexOfAppend(a: string, b: string, c: char)
    requires c in a
    ensures Strings.IndexOf(a + b, c) == Strings.IndexOf(a, c)
  {
    var k := Strings.IndexOf(a, c);
    assert k < |a|;
    assert (a + b)[k] == c;
  }

  /** Both `a` and `a + b` start with the first line of `a` when `a` ends in a newline. */
  lemma LinesSplit(a: string, b: string)
    requires a != "" && a[|a| - 1] == '\n'
    ensures var k := Strings.IndexOf(a, '\n');
            && k < |a|
            && Lines(a) == [a[..k]] + Lines(a[k + 1..])
            && Lines(a + b) == [a[..k]] + Lines(a[k + 1..] + b)
  {
    assert a[|a| - 1] in a;
    IndexOfAppend(a, b, '\n');
    var k := Strings.IndexOf(a, '\n');
    assert (a + b)[..k] == a[..k];
    assert (a + b)[k + 1..] == a[k + 1..] + b;
  }

  /** What follows the first line of a text ending in a newline ends in a newline too. */
  lemma RestEndsInNewline(a: string, k: nat)
    requires a != "" && a[|a| - 1] == '\n' && k < |a|
    ensures a[k + 1..] == "" || a[k + 1..][|a[k + 1..]| - 1] == '\n'
  {
    if k + 1 < |a| {
      assert a[k + 1..][|a[k + 1..]| - 1] == a[|a| - 1];
    }
  }

  /** A text that ends at a line boundary splits into lines independently of what follows. */
  lemma {:induction false} LinesAppend(a: string, b: string)
    requires a == "" || a[|a| - 1] == '\n'
    ensures Lines(a + b) == Lines(a) + Lines(b)
    decreases |a|
  {
    if a == "" {
      assert a + b == b;
      assert Lines(a) == [];
    } else {
      var k := Strings.IndexOf(a, '\n');
      var rest := a[k + 1..];
      var first := [a[..k]];
      assert k < |a| && Lines(a + b) == first + Lines(rest + b) && Lines(a) == first + Lines(rest) by {
        LinesSplit(a, b);
      }
      assert Lines(rest + b) == Lines(rest) + Lines(b) by {
        RestEndsInNewline(a, k);
        LinesAppend(rest, b);
      }
      Strings.AppendAssoc(first, Lines(rest), Lines(b));
    }
  }

  /** Lines ending in a blank line close every event, so what follows is grouped afresh. */
  lemma {:induction false} GroupAppend(xs: seq<string>, ys: seq<string>, pending: seq<Field>)
    requires (|xs| == 0 && pending == []) || (|xs| > 0 && xs[|xs| - 1] == "")
    ensures Group(xs + ys, pending) == Group(xs, pending) + Group(ys, [])
    decreases |xs|
  {
    if |xs| == 0 {
      assert xs + ys == ys;
    } else {
      assert (xs + ys)[0] == xs[0];
      assert (xs + ys)[1..] == xs[1..] + ys;
      if xs[0] == "" {
        if |xs| == 1 {
          assert xs[1..] + ys == ys;
          assert Group(xs[1..], []) == [];
        } else {
          GroupAppend(xs[1..], ys, []);
        }
      } else if xs[0][0] == ':' {
        GroupAppend(xs[1..], ys, pending);
      } else {
        GroupAppend(xs[1..], ys, pending + [ParseField(xs[0])]);
      }
    }
  }

  /** A line with no newline followed by a newline is exactly that one line. */
  lemma LinesOfLine(line: string, rest: string)
    requires '\n' !in line
    ensures Lines(line + "\n" + rest) == [line] + Lines(rest)
  {
    var s := line + "\n" + rest;
    assert s[|line|] == '\n';
    assert forall i :: 0 <= i < |line| ==> s[i] == line[i];
    var k := Strings.IndexOf(s, '\n');
    assert k == |line|;
    assert s[..k] == line;
    assert s[k + 1..] == rest;
  }

  /** A field line whose name has no colon reads back as that name and value. */
  lemma ParseFieldOf(name: string, value: string)
    requires ':' !in name
    ensures ParseField(name + ": " + value) == Field(name, value)
  {
    var line := name + ": " + value;
    assert line[|name|] == ':';
    assert forall i :: 0 <= i < |name| ==> line[i] == name[i];
    assert Strings.IndexOf(line, ':') == |name|;
    assert line[..|name|] == name;
    assert line[|name| + 1..] == " " + value;
  }
}
