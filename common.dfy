/** Values and text operations shared by every part of the model: optional and
    failing results, Python string methods used by the scripts (`split`,
    `join`, `endswith`, `strip`, `lower`, `readlines`), decimal rendering of
    integers, and POSIX path joining. */
module Common {

  datatype Option<T> = None | Some(value: T)

  datatype Result<T, E> = Ok(value: T) | Err(error: E)

  /** Python truthiness of a value that is either `None` or a string. */
  predicate Truthy(s: Option<string>) {
    s.Some? && s.value != ""
  }

  predicate StartsWith(s: string, prefix: string) {
    |prefix| <= |s| && s[..|prefix|] == prefix
  }

  /** `s.endswith(suffix)` */
  predicate EndsWith(s: string, suffix: string) {
    |suffix| <= |s| && s[|s| - |suffix|..] == suffix
  }

  lemma EndsWithAppend(q: string, suffix: string)
    ensures EndsWith(q + suffix, suffix)
  {
    assert (q + suffix)[|q + suffix| - |suffix|..] == suffix;
  }

  // ---------------------------------------------------------------- split / join

  /** `sep.join(parts)` */
  function Join(parts: seq<string>, sep: string): string
  {
    if |parts| == 0 then ""
    else if |parts| == 1 then parts[0]
    else parts[0] + sep + Join(parts[1..], sep)
  }

  /** `s.split(c)` for a one-character separator: the pieces between the
      occurrences of `c`, always at least one (`"".split(".") == [""]`). */
  function Split(s: string, c: char): (r: seq<string>)
    ensures |r| >= 1
  {
    if |s| == 0 then [""]
    else if s[0] == c then [""] + Split(s[1..], c)
    else var rest := Split(s[1..], c); [[s[0]] + rest[0]] + rest[1..]
  }

  /** No piece of a split contains the separator. */
  lemma {:induction false} SplitPiecesFree(s: string, c: char)
    ensures forall k :: 0 <= k < |Split(s, c)| ==> c !in Split(s, c)[k]
  {
    if |s| == 0 {
    } else if s[0] == c {
      SplitPiecesFree(s[1..], c);
    } else {
      SplitPiecesFree(s[1..], c);
      var rest := Split(s[1..], c);
      assert c !in [s[0]] + rest[0];
    }
  }

  /** A text splits into exactly one piece iff it does not contain the
      separator, and that piece is then the text itself. */
  lemma {:induction false} SplitSingle(s: string, c: char)
    ensures |Split(s, c)| == 1 <==> c !in s
    ensures c !in s ==> Split(s, c) == [s]
  {
    if |s| == 0 {
    } else if s[0] == c {
      assert c in s;
    } else {
      SplitSingle(s[1..], c);
      assert s == [s[0]] + s[1..];
      assert c in s <==> c in s[1..];
    }
  }

  /** Splitting pieces joined by the separator gives back the pieces, when
      none of them contains the separator. */
  lemma {:induction false} SplitJoin(parts: seq<string>, c: char)
    requires |parts| >= 1
    requires forall k :: 0 <= k < |parts| ==> c !in parts[k]
    ensures Split(Join(parts, [c]), c) == parts
  {
    if |parts| == 1 {
      SplitSingle(parts[0], c);
    } else {
      var rest := parts[1..];
      assert forall k :: 0 <= k < |rest| ==> rest[k] == parts[k + 1];
      SplitJoin(rest, c);
      var tail := Join(rest, [c]);
      assert Join(parts, [c]) == parts[0] + [c] + tail;
      SplitPrefix(parts[0], tail, c);
      assert parts == [parts[0]] + rest;
    }
  }

  lemma {:induction false} SplitPrefix(a: string, b: string, c: char)
    requires c !in a
    ensures Split(a + [c] + b, c) == [a] + Split(b, c)
  {
    if |a| == 0 {
      assert a + [c] + b == [c] + b;
      assert ([c] + b)[1..] == b;
    } else {
      SplitPrefix(a[1..], b, c);
      assert (a + [c] + b)[1..] == a[1..] + [c] + b;
      assert [a[0]] + a[1..] == a;
    }
  }

  /** How often a character occurs in a text. */
  function Occurrences(s: string, c: char): nat
  {
    if |s| == 0 then 0 else (if s[0] == c then 1 else 0) + Occurrences(s[1..], c)
  }

  /** A split has one piece more than the text has separators. */
  lemma {:induction false} SplitCount(s: string, c: char)
    ensures |Split(s, c)| == Occurrences(s, c) + 1
  {
    if |s| > 0 {
      SplitCount(s[1..], c);
    }
  }

  /** Every occurrence of `c` replaced by `sep`, the other characters kept. */
  function Replace(s: string, c: char, sep: string): string
  {
    if |s| == 0 then "" else (if s[0] == c then sep else [s[0]]) + Replace(s[1..], c, sep)
  }

  /** `sep.join(s.split(c))` is the text with every `c` replaced by `sep`. */
  lemma {:induction false} JoinSplitReplaces(s: string, c: char, sep: string)
    ensures Join(Split(s, c), sep) == Replace(s, c, sep)
  {
    if |s| > 0 {
      var rest := Split(s[1..], c);
      JoinSplitReplaces(s[1..], c, sep);
      if s[0] == c {
        assert ([""] + rest)[1..] == rest;
      } else {
        var parts := [[s[0]] + rest[0]] + rest[1..];
        if |rest| == 1 {
          assert parts == [[s[0]] + rest[0]];
        } else {
          assert parts[1..] == rest[1..];
          assert Join(rest, sep) == rest[0] + sep + Join(rest[1..], sep);
        }
      }
    }
  }

  // ---------------------------------------------------------------- strip / lower

  /** `s.lstrip(chr)` for one character */
  function StripLeading(s: string, ch: char): (r: string)
    ensures |r| <= |s| && r == s[|s| - |r|..]
    ensures r == "" || r[0] != ch
  {
    if |s| > 0 && s[0] == ch then StripLeading(s[1..], ch) else s
  }

  /** `s.rstrip(chr)` for one character */
  function StripTrailing(s: string, ch: char): (r: string)
    ensures |r| <= |s| && r == s[..|r|]
    ensures r == "" || r[|r| - 1] != ch
  {
    if |s| > 0 && s[|s| - 1] == ch then StripTrailing(s[..|s| - 1], ch) else s
  }

  /** `s.strip(chr)` for one character: both ends. */
  function Strip(s: string, ch: char): string
  {
    StripTrailing(StripLeading(s, ch), ch)
  }

  /** Stripping leaves a text that neither starts nor ends with the stripped
      character, and leaves a text without that character unchanged. */
  lemma StripProperties(s: string, ch: char)
    ensures var r := Strip(s, ch); r == "" || (r[0] != ch && r[|r| - 1] != ch)
    ensures ch !in s ==> Strip(s, ch) == s
  {
    var l := StripLeading(s, ch);
    var r := StripTrailing(l, ch);
    if r != "" {
      assert r[0] == l[0];
    }
    if ch !in s {
      if |s| > 0 {
        assert s[0] in s;
        assert s[|s| - 1] in s;
      }
    }
  }

  /** A line as `readlines` returns it, a text without newlines followed by at
      most one newline, strips to that text. */
  lemma StripLine(text: string)
    requires '\n' !in text
    ensures Strip(text + "\n", '\n') == text
    ensures Strip(text, '\n') == text
  {
    StripProperties(text, '\n');
    var s := text + "\n";
    if |text| == 0 {
      assert s == "\n";
      assert StripLeading(s, '\n') == StripLeading("", '\n');
    } else {
      assert s[0] == text[0];
      assert text[0] in text;
      assert StripLeading(s, '\n') == s;
      assert s[..|s| - 1] == text;
      assert text[|text| - 1] in text;
      assert StripTrailing(s, '\n') == StripTrailing(text, '\n');
    }
  }

  function AsciiLowerChar(c: char): char {
    if 'A' <= c <= 'Z' then (c as int + 32) as char else c
  }

  /** `s.lower()` on ASCII letters. */
  function Lower(s: string): (r: string)
    ensures |r| == |s|
    ensures forall k :: 0 <= k < |s| ==> r[k] == AsciiLowerChar(s[k])
  {
    if |s| == 0 then "" else [AsciiLowerChar(s[0])] + Lower(s[1..])
  }

  // ---------------------------------------------------------------- readlines

  /** `f.readlines()` of a file holding `text`: the lines with their newlines
      kept, the last one without a newline when the text does not end in one. */
  function ReadLines(text: string): (r: seq<string>)
    ensures forall k :: 0 <= k < |r| ==> r[k] != ""
  {
    if |text| == 0 then []
    else if '\n' !in text then [text]
    else
      var i := FirstIndex(text, '\n');
      [text[..i + 1]] + ReadLines(text[i + 1..])
  }

  function FirstIndex(s: string, c: char): (i: nat)
    requires c in s
    ensures i < |s| && s[i] == c && c !in s[..i]
  {
    if s[0] == c then 0 else FirstIndex(s[1..], c) + 1
  }

  /** The first occurrence is where the character occurs with none before it. */
  lemma {:induction false} FirstIndexAt(s: string, c: char, j: nat)
    requires j < |s| && s[j] == c && c !in s[..j]
    ensures FirstIndex(s, c) == j
  {
    if j > 0 {
      assert s[0] == s[..j][0];
      assert s[1..][..j - 1] == s[1..j];
      assert forall k :: 0 <= k < j - 1 ==> s[1..j][k] == s[..j][k + 1];
      FirstIndexAt(s[1..], c, j - 1);
    }
  }

  function Concat(parts: seq<string>): string
  {
    if |parts| == 0 then "" else parts[0] + Concat(parts[1..])
  }

  /** Concatenation takes an appended piece last, and so distributes over
      `+`: pieces written one after another give their concatenation. */
  lemma {:induction false} ConcatAppend(parts: seq<string>, more: seq<string>)
    ensures Concat(parts + more) == Concat(parts) + Concat(more)
  {
    if |parts| > 0 {
      ConcatAppend(parts[1..], more);
      assert (parts + more)[1..] == parts[1..] + more;
    } else {
      assert parts + more == more;
    }
  }

  /** Reading the lines of a text loses nothing: they concatenate to the text. */
  lemma {:induction false} ReadLinesConcat(text: string)
    ensures Concat(ReadLines(text)) == text
  {
    if |text| == 0 {
    } else if '\n' !in text {
    } else {
      var i := FirstIndex(text, '\n');
      ReadLinesConcat(text[i + 1..]);
      assert text == text[..i + 1] + text[i + 1..];
    }
  }

  /** The lines of the record file written as `id + "\n"` per id are those
      records, when no id contains a newline. */
  lemma {:induction false} ReadLinesOfRecords(ids: seq<string>)
    requires forall k :: 0 <= k < |ids| ==> '\n' !in ids[k]
    ensures ReadLines(Concat(NewlineTerminated(ids))) == NewlineTerminated(ids)
  {
    if |ids| > 0 {
      ReadLinesOfRecords(ids[1..]);
      var text := Concat(NewlineTerminated(ids));
      var head := ids[0] + "\n";
      assert NewlineTerminated(ids)[1..] == NewlineTerminated(ids[1..]);
      assert text == head + Concat(NewlineTerminated(ids[1..]));
      assert text[|ids[0]|] == '\n';
      assert '\n' in text;
      assert text[..|ids[0]|] == ids[0];
      FirstIndexAt(text, '\n', |ids[0]|);
      var i := FirstIndex(text, '\n');
      assert text[..i + 1] == head;
      assert text[i + 1..] == Concat(NewlineTerminated(ids[1..]));
    }
  }

  /** `[s + '\n' for s in ids]` */
  function NewlineTerminated(ids: seq<string>): (r: seq<string>)
    ensures |r| == |ids|
    ensures forall k :: 0 <= k < |ids| ==> r[k] == ids[k] + "\n"
  {
    if |ids| == 0 then [] else [ids[0] + "\n"] + NewlineTerminated(ids[1..])
  }

  /** `[s.strip('\n') for s in lines]` */
  function StripNewlines(lines: seq<string>): (r: seq<string>)
    ensures |r| == |lines|
    ensures forall k :: 0 <= k < |lines| ==> r[k] == Strip(lines[k], '\n')
  {
    if |lines| == 0 then [] else [Strip(lines[0], '\n')] + StripNewlines(lines[1..])
  }

  /** Reading back a line-per-id file gives the ids. */
  lemma RecordFileRoundTrip(ids: seq<string>)
    requires forall k :: 0 <= k < |ids| ==> '\n' !in ids[k]
    ensures StripNewlines(ReadLines(Concat(NewlineTerminated(ids)))) == ids
  {
    ReadLinesOfRecords(ids);
    forall k | 0 <= k < |ids|
      ensures Strip(ids[k] + "\n", '\n') == ids[k]
    {
      StripLine(ids[k]);
    }
  }

  // ---------------------------------------------------------------- decimal text

  /** The character of a decimal digit. */
  function Digit(d: nat): char
    requires d < 10
  {
    ('0' as int + d) as char
  }

  /** `str(n)` / `"{}".format(n)` for a natural number. */
  function DecimalString(n: nat): (r: string)
    ensures |r| >= 1
    ensures forall k :: 0 <= k < |r| ==> '0' <= r[k] <= '9'
  {
    if n < 10 then [Digit(n)] else DecimalString(n / 10) + [Digit(n % 10)]
  }

  /** The value of a text of decimal digits. */
  function DecimalValue(s: string): nat
    requires forall k :: 0 <= k < |s| ==> '0' <= s[k] <= '9'
  {
    if |s| == 0 then 0
    else 10 * DecimalValue(s[..|s| - 1]) + (s[|s| - 1] as int - '0' as int)
  }

  /** Parsing the decimal rendering gives back the number. */
  lemma {:induction false} DecimalRoundTrip(n: nat)
    ensures DecimalValue(DecimalString(n)) == n
  {
    if n >= 10 {
      DecimalRoundTrip(n / 10);
      var s := DecimalString(n);
      assert s == DecimalString(n / 10) + [Digit(n % 10)];
      assert s[..|s| - 1] == DecimalString(n / 10);
      assert s[|s| - 1] as int - '0' as int == n % 10;
    }
  }

  /** Distinct numbers render to distinct texts. */
  lemma DecimalInjective(m: nat, n: nat)
    requires DecimalString(m) == DecimalString(n)
    ensures m == n
  {
    DecimalRoundTrip(m);
    DecimalRoundTrip(n);
  }

  /** A larger number never renders shorter. */
  lemma {:induction false} DecimalLengthMonotone(m: nat, n: nat)
    requires m <= n
    ensures |DecimalString(m)| <= |DecimalString(n)|
  {
    if m >= 10 {
      DecimalLengthMonotone(m / 10, n / 10);
    }
  }

  // ---------------------------------------------------------------- paths

  /** `os.path.join(a, b)` on POSIX: an absolute `b` replaces `a`, otherwise a
      slash is inserted unless `a` is empty or already ends with one. */
  function PathJoin(a: string, b: string): string
  {
    if StartsWith(b, "/") then b
    else if a == "" || EndsWith(a, "/") then a + b
    else a + "/" + b
  }

  /** `os.path.join(a, *parts)` */
  function PathJoinAll(a: string, parts: seq<string>): string
    decreases |parts|
  {
    if |parts| == 0 then a else PathJoinAll(PathJoin(a, parts[0]), parts[1..])
  }

  /** The directory part `os.path.join` puts in front of a relative name. */
  function JoinPrefix(a: string): string {
    if a == "" || EndsWith(a, "/") then a else a + "/"
  }

  /** Joining a relative name to a directory puts that name last, after a
      prefix that depends on the directory only; so distinct relative names
      give distinct paths. */
  lemma PathJoinRelative(a: string, b: string, b': string)
    requires !StartsWith(b, "/") && !StartsWith(b', "/")
    ensures PathJoin(a, b) == JoinPrefix(a) + b
    ensures PathJoin(a, b) == PathJoin(a, b') ==> b == b'
  {
    var p := JoinPrefix(a);
    if PathJoin(a, b) == PathJoin(a, b') {
      assert (p + b)[|p|..] == b;
      assert (p + b')[|p|..] == b';
    }
  }

  /** `os.path.basename(p)`: the part after the last slash. */
  function Basename(p: string): string
  {
    if |p| == 0 || p[|p| - 1] == '/' then ""
    else Basename(p[..|p| - 1]) + [p[|p| - 1]]
  }

  /** A basename has no slash. */
  lemma {:induction false} BasenameNoSlash(p: string)
    ensures '/' !in Basename(p)
  {
    if |p| > 0 && p[|p| - 1] != '/' {
      BasenameNoSlash(p[..|p| - 1]);
    }
  }

  /** The basename of a path joined onto a directory is the joined name, when
      that name has no slash. */
  lemma {:induction false} BasenameOfJoin(a: string, name: string)
    requires '/' !in name
    ensures Basename(PathJoin(a, name)) == name
  {
    if name != "" {
      assert name[0] in name;
    }
    var p := PathJoin(a, name);
    assert p == JoinPrefix(a) + name;
    BasenameSuffix(JoinPrefix(a), name);
  }

  lemma {:induction false} BasenameSuffix(pre: string, name: string)
    requires '/' !in name
    requires pre == "" || pre[|pre| - 1] == '/'
    ensures Basename(pre + name) == name
  {
    var p := pre + name;
    if |name| == 0 {
      assert p == pre;
    } else {
      var last := name[|name| - 1];
      var init := name[..|name| - 1];
      assert last in name;
      assert p[|p| - 1] == last;
      assert forall k :: 0 <= k < |init| ==> init[k] == name[k];
      assert p[..|p| - 1] == pre + init;
      BasenameSuffix(pre, init);
      assert Basename(p) == Basename(pre + init) + [last];
      assert init + [last] == name;
    }
  }

  /** The elements that pass a test, in order. */
  function Kept<T>(f: T -> bool, s: seq<T>): seq<T>
  {
    if |s| == 0 then []
    else Kept(f, s[..|s| - 1]) + (if f(s[|s| - 1]) then [s[|s| - 1]] else [])
  }

  /** The elements that fail a test, in order. */
  function Dropped<T>(f: T -> bool, s: seq<T>): seq<T>
  {
    if |s| == 0 then []
    else Dropped(f, s[..|s| - 1]) + (if f(s[|s| - 1]) then [] else [s[|s| - 1]])
  }

  /** Every element passes or fails, so the two together hold the input, no
      more and no fewer. */
  lemma {:induction false} KeptDroppedPartition<T>(f: T -> bool, s: seq<T>)
    ensures multiset(Kept(f, s)) + multiset(Dropped(f, s)) == multiset(s)
  {
    if |s| == 0 {
      assert Kept(f, s) == [] && Dropped(f, s) == [];
    } else {
      var init, x := s[..|s| - 1], s[|s| - 1];
      assert s == init + [x];
      KeptDroppedPartition(f, init);
      KeptDroppedSnoc(f, init, x);
      PartitionStep(Kept(f, init + [x]), Dropped(f, init + [x]), Kept(f, init), Dropped(f, init), init, x, f(x));
    }
  }

  /** An element appended to the input goes to one side or the other. */
  lemma KeptDroppedSnoc<T>(f: T -> bool, init: seq<T>, x: T)
    ensures Kept(f, init + [x]) == Kept(f, init) + (if f(x) then [x] else [])
    ensures Dropped(f, init + [x]) == Dropped(f, init) + (if f(x) then [] else [x])
  {
    assert (init + [x])[..|init|] == init;
  }

  /** Kept and Dropped of the first `n` elements, counted by index, as
      loops that walk the input track them. */
  function KeptUpTo<T>(f: T -> bool, s: seq<T>, n: nat): seq<T>
    requires n <= |s|
  {
    if n == 0 then [] else KeptUpTo(f, s, n - 1) + (if f(s[n - 1]) then [s[n - 1]] else [])
  }

  function DroppedUpTo<T>(f: T -> bool, s: seq<T>, n: nat): seq<T>
    requires n <= |s|
  {
    if n == 0 then [] else DroppedUpTo(f, s, n - 1) + (if f(s[n - 1]) then [] else [s[n - 1]])
  }

  lemma {:induction false} KeptDroppedUpTo<T>(f: T -> bool, s: seq<T>, n: nat)
    requires n <= |s|
    ensures KeptUpTo(f, s, n) == Kept(f, s[..n]) && DroppedUpTo(f, s, n) == Dropped(f, s[..n])
  {
    if n > 0 {
      KeptDroppedUpTo(f, s, n - 1);
      assert s[..n] == s[..n - 1] + [s[n - 1]];
      KeptDroppedSnoc(f, s[..n - 1], s[n - 1]);
    }
  }

  /** One more element, put on one side or the other, keeps two sequences a
      partition of the input. */
  lemma PartitionStep<T>(kept: seq<T>, dropped: seq<T>, kept0: seq<T>, dropped0: seq<T>, init: seq<T>,
                         x: T, keep: bool)
    requires multiset(kept0) + multiset(dropped0) == multiset(init)
    requires kept == kept0 + (if keep then [x] else []) && dropped == dropped0 + (if keep then [] else [x])
    ensures multiset(kept) + multiset(dropped) == multiset(init + [x])
  {
    assert multiset(init + [x]) == multiset(init) + multiset{x};
  }

  lemma {:induction false} KeptDroppedTests<T>(f: T -> bool, s: seq<T>)
    ensures forall k :: 0 <= k < |Kept(f, s)| ==> f(Kept(f, s)[k])
    ensures forall k :: 0 <= k < |Dropped(f, s)| ==> !f(Dropped(f, s)[k])
  {
    if |s| > 0 {
      KeptDroppedTests(f, s[..|s| - 1]);
    }
  }

  /** Filtering keeps order: filtering two runs one after the other is
      filtering their concatenation. */
  lemma {:induction false} KeptDroppedAppend<T>(f: T -> bool, a: seq<T>, b: seq<T>)
    ensures Kept(f, a + b) == Kept(f, a) + Kept(f, b)
    ensures Dropped(f, a + b) == Dropped(f, a) + Dropped(f, b)
  {
    if |b| == 0 {
      assert a + b == a;
    } else {
      var init := b[..|b| - 1];
      assert (a + b)[..|a + b| - 1] == a + init;
      assert (a + b)[|a + b| - 1] == b[|b| - 1];
      KeptDroppedAppend(f, a, init);
    }
  }

  /** A line as `readlines` returns it: no line break but possibly a final one. */
  predicate LineShaped(line: string) {
    '\n' !in line || (|line| > 0 && line[|line| - 1] == '\n' && '\n' !in line[..|line| - 1])
  }

  lemma {:induction false} ReadLinesShaped(text: string)
    ensures forall k :: 0 <= k < |ReadLines(text)| ==> LineShaped(ReadLines(text)[k])
  {
    if |text| > 0 && '\n' in text {
      var i := FirstIndex(text, '\n');
      var line := text[..i + 1];
      assert line[..i] == text[..i];
      ReadLinesShaped(text[i + 1..]);
      assert LineShaped(line);
    }
  }

  /** The lines of a text with their line breaks stripped hold no line break. */
  lemma StrippedLinesFree(text: string)
    ensures forall k :: 0 <= k < |StripNewlines(ReadLines(text))| ==> '\n' !in StripNewlines(ReadLines(text))[k]
  {
    var lines := ReadLines(text);
    ReadLinesShaped(text);
    forall k | 0 <= k < |lines| ensures '\n' !in Strip(lines[k], '\n') {
      var line := lines[k];
      if '\n' in line {
        assert line == line[..|line| - 1] + "\n";
        StripLine(line[..|line| - 1]);
      } else {
        StripLine(line);
      }
    }
  }
}
