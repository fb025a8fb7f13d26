/** Shared vocabulary: optional values, JSON values with Python truthiness, and the
    Python string operations the scripts rely on (find, split, join, strip, Path.stem),
    plus the timestamp key every script derives from a file stem. */
module Common {

  datatype Option<+T> = None | Some(value: T)

  /** A JSON document as the scripts see it after `json.load`. Numbers are integers. */
  datatype Json =
    | JNull
    | JBool(b: bool)
    | JNum(n: int)
    | JStr(s: string)
    | JArr(items: seq<Json>)
    | JObj(fields: map<string, Json>)

  /** Python truthiness of a loaded JSON value (`if value:`). */
  predicate Truthy(j: Json) {
    match j
    case JNull => false
    case JBool(b) => b
    case JNum(n) => n != 0
    case JStr(s) => s != ""
    case JArr(a) => a != []
    case JObj(m) => m != map[]
  }

  // ---------------------------------------------------------------------------
  // Searching

  /** Python `s.find(c)`: index of the first occurrence, or -1. */
  function Find(s: string, c: char): (i: int)
    ensures -1 <= i < |s|
    ensures i == -1 <==> c !in s
    ensures i >= 0 ==> s[i] == c
  {
    if |s| == 0 then -1
    else if s[0] == c then 0
    else
      var k := Find(s[1..], c);
      if k < 0 then -1 else k + 1
  }

  /** Python `s.rfind(c)`: index of the last occurrence, or -1. */
  function RFind(s: string, c: char): (i: int)
    ensures -1 <= i < |s|
    ensures i == -1 <==> c !in s
    ensures i >= 0 ==> s[i] == c
  {
    if |s| == 0 then -1
    else if s[|s| - 1] == c then |s| - 1
    else
      var k := RFind(s[..|s| - 1], c);
      assert forall m :: 0 <= m < |s| - 1 ==> s[..|s| - 1][m] == s[m];
      k
  }

  /** No position before the one `Find` returns holds `c`. */
  lemma {:induction false} FindFirst(s: string, c: char)
    ensures forall k :: 0 <= k < Find(s, c) ==> s[k] != c
  {
    if |s| > 0 && s[0] != c {
      FindFirst(s[1..], c);
    }
  }

  /** No position after the one `RFind` returns holds `c`. */
  lemma {:induction false} RFindLast(s: string, c: char)
    ensures forall k :: RFind(s, c) < k < |s| ==> s[k] != c
  {
    if |s| > 0 && s[|s| - 1] != c {
      RFindLast(s[..|s| - 1], c);
    }
  }

  /** `Find` returns the one position holding `c` with no `c` before it. */
  lemma FindIs(s: string, c: char, i: int)
    requires 0 <= i < |s| && s[i] == c
    requires forall k :: 0 <= k < i ==> s[k] != c
    ensures Find(s, c) == i
  {
    FindFirst(s, c);
  }

  /** `RFind` returns the one position holding `c` with no `c` after it. */
  lemma RFindIs(s: string, c: char, i: int)
    requires 0 <= i < |s| && s[i] == c
    requires forall k :: i < k < |s| ==> s[k] != c
    ensures RFind(s, c) == i
  {
    RFindLast(s, c);
  }

  /** No `c` lies after the last one. */
  lemma AfterRFind(s: string, c: char, i: int)
    requires i == RFind(s, c) && i >= 0
    ensures c !in s[i + 1..]
  {
    RFindLast(s, c);
    var t := s[i + 1..];
    forall k | 0 <= k < |t| ensures t[k] != c {
      assert t[k] == s[i + 1 + k];
    }
  }

  /** In `a + [c] + b` with no `c` in `a`, the first `c` is the one after `a`. */
  lemma FindPast(a: string, b: string, c: char)
    requires c !in a
    ensures Find(a + [c] + b, c) == |a|
    ensures (a + [c] + b)[..|a|] == a && (a + [c] + b)[|a| + 1..] == b
  {
    var s := a + [c] + b;
    forall k | 0 <= k < |a| ensures s[k] != c {
      assert s[k] == a[k];
    }
    FindIs(s, c, |a|);
  }

  /** No `c` lies before the first one. */
  lemma BeforeFind(s: string, c: char, i: int)
    requires i == Find(s, c) && i >= 0
    ensures c !in s[..i]
  {
    FindFirst(s, c);
    forall k | 0 <= k < i ensures s[..i][k] != c {
      assert s[..i][k] == s[k];
    }
  }

  predicate StartsWith(s: string, p: string) {
    |p| <= |s| && s[..|p|] == p
  }

  predicate EndsWith(s: string, p: string) {
    |p| <= |s| && s[|s| - |p|..] == p
  }

  // ---------------------------------------------------------------------------
  // Python str.split(sep) with a one-character separator, and sep.join(parts)

  function Split(s: string, c: char): (r: seq<string>)
    ensures |r| >= 1
    decreases |s|
  {
    var i := Find(s, c);
    if i < 0 then [s] else [s[..i]] + Split(s[i + 1..], c)
  }

  /** No part of a split holds the separator. */
  lemma {:induction false} SplitPartsLackSeparator(s: string, c: char)
    ensures forall k :: 0 <= k < |Split(s, c)| ==> c !in Split(s, c)[k]
    decreases |s|
  {
    var i := Find(s, c);
    if i >= 0 {
      SplitPartsLackSeparator(s[i + 1..], c);
      SplitAtFirst(s, c, i);
      BeforeFind(s, c, i);
    }
  }

  function Join(parts: seq<string>, sep: string): string {
    if |parts| == 0 then ""
    else if |parts| == 1 then parts[0]
    else parts[0] + sep + Join(parts[1..], sep)
  }

  /** Splitting and re-joining on the same character gives the string back. */
  lemma {:induction false} JoinSplit(s: string, c: char)
    ensures Join(Split(s, c), [c]) == s
    decreases |s|
  {
    var i := Find(s, c);
    if i >= 0 {
      var rest := s[i + 1..];
      JoinSplit(rest, c);
      SplitAtFirst(s, c, i);
      JoinCons(s[..i], Split(rest, c), [c]);
      CutAt(s, i);
    }
  }

  /** One unfolding of `Split` at the first separator. */
  lemma SplitAtFirst(s: string, c: char, i: int)
    requires i == Find(s, c) && i >= 0
    ensures Split(s, c) == [s[..i]] + Split(s[i + 1..], c)
  {
  }

  /** A first part without the separator is split off the front. */
  lemma SplitCons(head: string, tail: string, c: char)
    requires c !in head
    ensures Split(head + [c] + tail, c) == [head] + Split(tail, c)
  {
    FindPast(head, tail, c);
    SplitAtFirst(head + [c] + tail, c, |head|);
  }

  lemma JoinCons(head: string, tail: seq<string>, sep: string)
    requires |tail| >= 1
    ensures Join([head] + tail, sep) == head + sep + Join(tail, sep)
  {
    assert ([head] + tail)[1..] == tail;
  }

  lemma CutAt(s: string, i: int)
    requires 0 <= i < |s|
    ensures s == s[..i] + [s[i]] + s[i + 1..]
  {
  }

  /** A string splits into a single part exactly when it lacks the separator. */
  lemma SplitSingle(s: string, c: char)
    ensures |Split(s, c)| == 1 <==> c !in s
    ensures |Split(s, c)| == 1 ==> Split(s, c)[0] == s
  {
  }

  // ---------------------------------------------------------------------------
  // Python str.strip() / str.rstrip(chars) over whitespace below U+0080

  /** Python's whitespace among the ASCII characters: tab, line feed, U+000B, U+000C,
      carriage return, the separators U+001C to U+001F, and space. */
  predicate IsSpace(ch: char) {
    ch == ' ' || ch == '\t' || ch == '\n' || ch == '\r' || ch == '\U{B}' || ch == '\U{C}'
    || ('\U{1C}' <= ch <= '\U{1F}')
  }

  function StripLeft(s: string): (r: string)
    ensures |r| <= |s| && EndsWith(s, r)
    ensures r == "" || !IsSpace(r[0])
    ensures forall k :: 0 <= k < |s| - |r| ==> IsSpace(s[k])
  {
    if |s| > 0 && IsSpace(s[0]) then StripLeft(s[1..]) else s
  }

  function StripRight(s: string): (r: string)
    ensures |r| <= |s| && StartsWith(s, r)
    ensures r == "" || !IsSpace(r[|r| - 1])
    ensures forall k :: |r| <= k < |s| ==> IsSpace(s[k])
  {
    if |s| > 0 && IsSpace(s[|s| - 1]) then StripRight(s[..|s| - 1]) else s
  }

  /** Python `s.strip()`. */
  function Strip(s: string): string {
    StripRight(StripLeft(s))
  }

  /** Python `s.rstrip(c)` for one character `c`: drops every trailing `c`. */
  function RStripChar(s: string, c: char): (r: string)
    ensures StartsWith(s, r)
    ensures r == "" || r[|r| - 1] != c
    ensures forall k :: |r| <= k < |s| ==> s[k] == c
  {
    if |s| > 0 && s[|s| - 1] == c then RStripChar(s[..|s| - 1], c) else s
  }

  // ---------------------------------------------------------------------------
  // File names

  /** pathlib `Path(name).stem`: the name without its last suffix, where a suffix is a
      final `.xxx` that neither starts the name nor is empty. */
  function Stem(name: string): string {
    var i := RFind(name, '.');
    if 0 < i < |name| - 1 then name[..i] else name
  }

  /** The stem of a file name is a prefix of it. */
  lemma StemIsPrefix(name: string)
    ensures StartsWith(name, Stem(name))
  {
    var i := RFind(name, '.');
    if 0 < i < |name| - 1 {
      assert name[..|name[..i]|] == name[..i];
    }
  }

  /** The timestamp key of a stem: `'_'.join(stem.split('_')[:2])`, the join key between
      a mail, its classification and its extracted documents. */
  function Key(stem: string): string {
    var parts := Split(stem, '_');
    Join(parts[..if |parts| < 2 then |parts| else 2], "_")
  }

  /** The spelled-out form used by the batch scripts: first two segments when there are
      at least two, otherwise the whole stem. It is the same function as `Key`. */
  lemma KeyTwoForms(stem: string)
    ensures var parts := Split(stem, '_');
            Key(stem) == if |parts| >= 2 then parts[0] + "_" + parts[1] else stem
  {
    var parts := Split(stem, '_');
    if |parts| < 2 {
      SplitSingle(stem, '_');
    } else {
      var two := parts[..2];
      assert two[1..] == [parts[1]];
      assert Join(two[1..], "_") == parts[1];
    }
  }

  /** The first two parts of a split, by searching. */
  lemma SplitFirstTwo(stem: string, i: int, j: int)
    requires i == Find(stem, '_') && i >= 0
    requires j == Find(stem[i + 1..], '_')
    ensures |Split(stem, '_')| >= 2
    ensures Split(stem, '_')[0] == stem[..i]
    ensures Split(stem, '_')[1] == if j < 0 then stem[i + 1..] else stem[i + 1..][..j]
  {
    var rest := stem[i + 1..];
    SplitAtFirst(stem, '_', i);
    if j < 0 {
      SplitSingle(rest, '_');
    } else {
      SplitAtFirst(rest, '_', j);
    }
  }

  lemma CutAround(s: string, i: int, n: int)
    requires 0 <= i < n <= |s| && s[i] == '_'
    ensures s[..n] == s[..i] + "_" + s[i + 1..][..n - i - 1]
  {
    assert s[i + 1..][..n - i - 1] == s[i + 1..n];
    assert s[..n] == s[..i] + s[i..i + 1] + s[i + 1..n];
  }

  lemma KeyCutAtSecond(stem: string, i: int, j: int)
    requires i == Find(stem, '_') && i >= 0
    requires j == Find(stem[i + 1..], '_') && j >= 0
    ensures Key(stem) == stem[..i + 1 + j]
  {
    var rest := stem[i + 1..];
    var parts := Split(stem, '_');
    SplitFirstTwo(stem, i, j);
    KeyTwoForms(stem);
    assert Key(stem) == parts[0] + "_" + parts[1];
    assert parts[1] == rest[..j];
    CutAround(stem, i, i + 1 + j);
  }

  lemma KeyWholeStem(stem: string, i: int)
    requires i == Find(stem, '_')
    requires i < 0 || Find(stem[i + 1..], '_') < 0
    ensures Key(stem) == stem
  {
    KeyTwoForms(stem);
    if i >= 0 {
      SplitFirstTwo(stem, i, -1);
      CutAt(stem, i);
    } else {
      SplitSingle(stem, '_');
    }
  }

  /** `Key` computed by searching: cut the stem before the underscore that follows the
      first one, if there is such a second underscore. */
  lemma KeyByFind(stem: string)
    ensures var i := Find(stem, '_');
            var j := if i < 0 then -1 else Find(stem[i + 1..], '_');
            Key(stem) == if j < 0 then stem else stem[..i + 1 + j]
  {
    var i := Find(stem, '_');
    var j := if i < 0 then -1 else Find(stem[i + 1..], '_');
    if j < 0 {
      KeyWholeStem(stem, i);
    } else {
      KeyCutAtSecond(stem, i, j);
    }
  }

  /** The key is the stem cut just before its second underscore (or the whole stem). */
  lemma KeyIsPrefix(stem: string)
    ensures StartsWith(stem, Key(stem))
    ensures |Key(stem)| < |stem| ==> stem[|Key(stem)|] == '_'
    ensures forall k, l :: 0 <= k < l < |Key(stem)| && Key(stem)[k] == '_' ==> Key(stem)[l] != '_'
  {
    KeyByFind(stem);
    var i := Find(stem, '_');
    var j := if i < 0 then -1 else Find(stem[i + 1..], '_');
    var n := if j < 0 then |stem| else i + 1 + j;
    var key := Key(stem);
    assert key == stem[..n];
    if j >= 0 {
      assert stem[n] == stem[i + 1..][j];
    }
    forall k, l | 0 <= k < l < n && key[k] == '_' ensures key[l] != '_' {
      assert key[k] == stem[k] && key[l] == stem[l];
      LaterNotUnderscore(stem, i, j, k, l);
    }
  }

  /** Past the first underscore and before the second, no underscore occurs. */
  lemma LaterNotUnderscore(stem: string, i: int, j: int, k: int, l: int)
    requires i == Find(stem, '_')
    requires i < 0 ==> j == -1
    requires i >= 0 ==> j == Find(stem[i + 1..], '_')
    requires 0 <= k < l < (if j < 0 then |stem| else i + 1 + j) && stem[k] == '_'
    ensures stem[l] != '_'
  {
    FindFirst(stem, '_');
    assert i >= 0 && k >= i;
    FindFirst(stem[i + 1..], '_');
    assert stem[l] == stem[i + 1..][l - i - 1];
  }

  // ---------------------------------------------------------------------------
  // Small sequence helpers

  function Count<T>(s: seq<T>, p: T -> bool): (n: nat)
    ensures n <= |s|
  {
    if |s| == 0 then 0 else (if p(s[0]) then 1 else 0) + Count(s[1..], p)
  }

  predicate IsDigit(ch: char) {
    '0' <= ch <= '9'
  }

  predicate AllDigits(s: string) {
    forall k :: 0 <= k < |s| ==> IsDigit(s[k])
  }

  /** Python slicing `s[:n]` for any integer `n` (a negative `n` counts from the end). */
  function TakePy<T>(s: seq<T>, n: int): (r: seq<T>)
    ensures |r| <= |s| && r == s[..|r|]
    ensures 0 <= n ==> |r| == if n < |s| then n else |s|
    ensures n < 0 ==> |r| == if |s| + n < 0 then 0 else |s| + n
  {
    var m := if n >= 0 then n else |s| + n;
    if m < 0 then [] else if m > |s| then s else s[..m]
  }

  // ---------------------------------------------------------------------------
  // Directory listings shared by the scripts

  /** A name that pathlib's `glob('*' + suffix)` lists: it ends with the suffix. Unlike a
      shell, pathlib lets the leading `*` match a leading dot, so hidden files are listed
      too. */
  predicate GlobStar(name: string, suffix: string) {
    EndsWith(name, suffix)
  }

  /** A name listed by `glob(f"{timestamp}_*.eml")`. The timestamp is taken as a literal
      prefix: a timestamp holding `*`, `?` or `[` would be a pattern in the glob, which is
      not modelled. */
  predicate MailFor(ts: string, name: string) {
    StartsWith(name, ts + "_") && EndsWith(name, ".eml") && |name| >= |ts| + 5
  }

  /** An extracted document in `processed/`: `{key}_{kind}.json`. */
  function DocumentName(key: string, kind: string): string {
    key + "_" + kind + ".json"
  }

  /** The classification file a mail is looked up by: `{key}_identifier.json`. */
  function IdentifierFile(mailStem: string): string {
    Key(mailStem) + "_identifier.json"
  }

  /** The `.eml` files of the mail directory that have no classification file yet. */
  function Unclassified(mails: set<string>, classified: set<string>): (r: set<string>)
    ensures forall n :: n in r <==> n in mails && GlobStar(n, ".eml") && IdentifierFile(Stem(n)) !in classified
  {
    set n | n in mails && GlobStar(n, ".eml") && IdentifierFile(Stem(n)) !in classified
  }

  predicate Distinct<T(==)>(s: seq<T>) {
    forall i, j :: 0 <= i < j < |s| ==> s[i] != s[j]
  }
}
