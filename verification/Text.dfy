/** Go's strings.TrimSpace, strings.Split and strings.Join, on sequences. */
module Text {
  import opened Basics

  /** unicode.IsSpace. */
  predicate IsSpace(c: char) {
    || '\t' <= c <= '\r' || c == ' ' || c == '\U{85}' || c == '\U{A0}' || c == '\U{1680}'
    || '\U{2000}' <= c <= '\U{200A}' || c == '\U{2028}' || c == '\U{2029}' || c == '\U{202F}'
    || c == '\U{205F}' || c == '\U{3000}'
  }

  function TrimLeft<T>(s: seq<T>, space: T -> bool): seq<T> {
    if s != [] && space(s[0]) then TrimLeft(s[1..], space) else s
  }

  function TrimRight<T>(s: seq<T>, space: T -> bool): seq<T> {
    if s != [] && space(s[|s| - 1]) then TrimRight(s[..|s| - 1], space) else s
  }

  /** The longest stretch of `s` with no outer white space. */
  function Trim<T>(s: seq<T>, space: T -> bool): (t: seq<T>)
    ensures Trimmed(t, space)
    ensures Trimmed(s, space) ==> t == s
  {
    TrimLeftEnds(s, space);
    TrimRightEnds(TrimLeft(s, space), space);
    TrimRight(TrimLeft(s, space), space)
  }

  lemma {:induction false} TrimLeftEnds<T>(s: seq<T>, space: T -> bool)
    ensures var t := TrimLeft(s, space);
      && (t != [] ==> !space(t[0]))
      && |t| <= |s| && t == s[|s| - |t|..]
      && forall i :: 0 <= i < |s| - |t| ==> space(s[i])
  {
    if s != [] && space(s[0]) {
      TrimLeftEnds(s[1..], space);
    }
  }

  lemma {:induction false} TrimRightEnds<T>(s: seq<T>, space: T -> bool)
    ensures var t := TrimRight(s, space);
      && (t != [] ==> !space(t[|t| - 1]))
      && t <= s
      && forall i :: |t| <= i < |s| ==> space(s[i])
  {
    if s != [] && space(s[|s| - 1]) {
      TrimRightEnds(s[..|s| - 1], space);
    }
  }

  lemma TrimKeepsOut(s: string, c: char)
    requires c !in s
    ensures c !in TrimSpace(s)
  {
    TrimLeftEnds(s, IsSpace);
    TrimRightEnds(TrimLeft(s, IsSpace), IsSpace);
  }

  ghost predicate AllSpace<T>(s: seq<T>, space: T -> bool) {
    forall i :: 0 <= i < |s| ==> space(s[i])
  }

  lemma {:induction false} TrimLeftOfPadded<T>(pad: seq<T>, s: seq<T>, space: T -> bool)
    requires AllSpace(pad, space)
    ensures TrimLeft(pad + s, space) == TrimLeft(s, space)
  {
    if pad == [] {
      assert pad + s == s;
    } else {
      TailOfConcat(pad, s);
      TrimLeftOfPadded(pad[1..], s, space);
    }
  }

  lemma {:induction false} TrimRightOfPadded<T>(s: seq<T>, pad: seq<T>, space: T -> bool)
    requires AllSpace(pad, space)
    ensures TrimRight(s + pad, space) == TrimRight(s, space)
  {
    if pad == [] {
      assert s + pad == s;
    } else {
      FrontOfConcat(s, pad);
      TrimRightOfPadded(s, pad[..|pad| - 1], space);
    }
  }

  /** Whatever white space is put around a trimmed text, trimming gives the text back. */
  lemma TrimOfPadded(before: string, text: string, after: string)
    requires AllSpace(before, IsSpace) && AllSpace(after, IsSpace) && Trimmed(text, IsSpace)
    ensures TrimSpace(before + text + after) == text
  {
    var none: string := [];
    assert before + text + after == before + (text + after);
    TrimLeftOfPadded(before, text + after, IsSpace);
    TrimRightOfPadded(text, after, IsSpace);
    if text == [] {
      assert text + after == after && after + none == after;
      TrimLeftOfPadded(after, none, IsSpace);
    } else {
      assert (text + after)[0] == text[0];
    }
  }

  ghost predicate Trimmed<T>(s: seq<T>, space: T -> bool) {
    s == [] || (!space(s[0]) && !space(s[|s| - 1]))
  }

  function TrimSpace(s: string): (t: string)
    ensures Trimmed(t, IsSpace)
    ensures Trimmed(s, IsSpace) ==> t == s
  {
    Trim(s, IsSpace)
  }

  /** strings.Split for a one-character separator. */
  function Split(s: string, sep: char): (parts: seq<string>)
    ensures |parts| >= 1
    ensures forall part :: part in parts ==> sep !in part
    ensures Join(parts, sep) == s
  {
    if s == "" then [""]
    else
      var rest := Split(s[1..], sep);
      if s[0] == sep then
        var parts := [""] + rest;
        assert parts[1..] == rest;
        parts
      else
        var parts := [[s[0]] + rest[0]] + rest[1..];
        assert parts[1..] == rest[1..];
        assert s == [s[0]] + s[1..];
        parts
  }

  function Join(parts: seq<string>, sep: char): string {
    if parts == [] then ""
    else if |parts| == 1 then parts[0]
    else parts[0] + [sep] + Join(parts[1..], sep)
  }

  /** Splitting is the only way to write a text as separator-free parts. */
  lemma {:induction false} SplitOfJoin(parts: seq<string>, sep: char)
    requires |parts| >= 1 && forall part :: part in parts ==> sep !in part
    ensures Split(Join(parts, sep), sep) == parts
    decreases |parts|, |parts[0]|
  {
    var s := Join(parts, sep);
    var head := parts[0];
    if head == "" {
      if |parts| == 1 {
        assert parts == [""];
      } else {
        assert s[1..] == Join(parts[1..], sep);
        SplitOfJoin(parts[1..], sep);
        assert parts == [""] + parts[1..];
      }
    } else {
      var shorter := [head[1..]] + parts[1..];
      assert shorter[1..] == parts[1..];
      assert s[0] == head[0] && head[0] in head && head in parts;
      assert s[1..] == Join(shorter, sep);
      assert forall part :: part in shorter ==> sep !in part;
      SplitOfJoin(shorter, sep);
      assert [s[0]] + shorter[0] == head;
      assert parts == [head] + shorter[1..];
    }
  }

  function Kept(part: string): seq<string> {
    if TrimSpace(part) == "" then [] else [TrimSpace(part)]
  }

  /** The trimmed, non-empty ones of the parts. */
  function NonEmpty(parts: seq<string>): seq<string> {
    if parts == [] then [] else Kept(parts[0]) + NonEmpty(parts[1..])
  }

  /** The loop that trims parts and drops the empty ones. */
  method TrimParts(parts: seq<string>) returns (kept: seq<string>)
    ensures kept == NonEmpty(parts)
  {
    kept := [];
    for i := 0 to |parts|
      invariant kept + NonEmpty(parts[i..]) == NonEmpty(parts)
    {
      assert parts[i..][0] == parts[i] && parts[i..][1..] == parts[i + 1..];
      ghost var now, later := Kept(parts[i]), NonEmpty(parts[i + 1..]);
      Assoc(kept, now, later);
      var part := TrimSpace(parts[i]);
      kept := if part == "" then kept else kept + [part];
    }
  }
}
