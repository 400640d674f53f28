/** The JavaScript built-ins that the queue store and the PNG/A1111 readers
    rely on, stated for the arguments those callers pass.  Strings are
    sequences of characters; `undefined` and `null` become `None`. */
module Js {

  datatype Option<+T> = None | Some(value: T)

  function Min(a: int, b: int): int { if a < b then a else b }

  /** Assigning a string or an object to the key "__proto__" of a plain
      object goes through the prototype setter: no own property appears. */
  const ProtoKey: string := "__proto__"

  /** `obj[key] = value` on a plain object, as seen through its own keys. */
  function SetProperty<V>(obj: map<string, V>, key: string, value: V): (r: map<string, V>)
    ensures r.Keys == if key == ProtoKey then obj.Keys else obj.Keys + {key}
    ensures key != ProtoKey ==> r[key] == value
    ensures forall k :: k in obj && k != key ==> r[k] == obj[k]
  {
    if key == ProtoKey then obj else obj[key := value]
  }

  /** `Uint8Array.prototype.slice(start, end)` and `String.prototype.slice`
      for non-negative bounds: `end` is clamped to the length and the result
      is empty when the clamped end does not exceed `start`. */
  function Slice<T>(s: seq<T>, start: nat, end: nat): (r: seq<T>)
    ensures start <= end <= |s| ==> r == s[start..end]
    ensures |r| == if Min(end, |s|) <= start then 0 else Min(end, |s|) - start
    ensures forall i :: 0 <= i < |r| ==> r[i] == s[start + i]
  {
    var e := Min(end, |s|);
    if e <= start then [] else s[start..e]
  }

  /** `String.prototype.substring(a, b)` for non-negative `a` and `b`: both
      are clamped to the length and swapped when `a > b`. */
  function Substring(s: string, a: nat, b: nat): (r: string)
    ensures a <= b <= |s| ==> r == s[a..b]
    ensures b < a <= |s| ==> r == s[b..a]
    ensures a <= |s| < b ==> r == s[a..]
    ensures b <= |s| < a ==> r == s[b..]
    ensures |s| < a && |s| < b ==> r == ""
  {
    var x, y := Min(a, |s|), Min(b, |s|);
    if x <= y then s[x..y] else s[y..x]
  }

  /** The characters `String.prototype.trim` removes: WhiteSpace and
      LineTerminator of the ECMAScript grammar. */
  predicate IsWhiteSpace(c: char) {
    || '\t' <= c <= '\r'                  // tab, line feed, vertical tab, form feed, carriage return
    || c == ' ' || c == '\U{00A0}' || c == '\U{1680}'
    || '\U{2000}' <= c <= '\U{200A}'         // en quad .. hair space
    || c == '\U{2028}' || c == '\U{2029}'    // line and paragraph separator
    || c == '\U{202F}' || c == '\U{205F}' || c == '\U{3000}' || c == '\U{FEFF}'
  }

  /** `String.prototype.trim`: drops white space from both ends. */
  function Trim(s: string): (r: string)
    ensures |r| <= |s|
    decreases |s|
  {
    if |s| > 0 && IsWhiteSpace(s[0]) then Trim(s[1..])
    else if |s| > 0 && IsWhiteSpace(s[|s| - 1]) then Trim(s[..|s| - 1])
    else s
  }

  /** No white space is left at either end of the trimmed string ... */
  lemma {:induction false} TrimEnds(s: string)
    ensures var r := Trim(s);
      |r| > 0 ==> !IsWhiteSpace(r[0]) && !IsWhiteSpace(r[|r| - 1])
    decreases |s|
  {
    if |s| > 0 && IsWhiteSpace(s[0]) {
      TrimEnds(s[1..]);
    } else if |s| > 0 && IsWhiteSpace(s[|s| - 1]) {
      TrimEnds(s[..|s| - 1]);
    }
  }

  /** ... it is the piece of the original between `lo` and `hi` ... */
  lemma {:induction false} TrimIsInfix(s: string) returns (lo: nat, hi: nat)
    ensures lo <= hi <= |s| && Trim(s) == s[lo..hi]
    ensures forall k :: 0 <= k < lo || hi <= k < |s| ==> IsWhiteSpace(s[k])
    decreases |s|
  {
    if |s| > 0 && IsWhiteSpace(s[0]) {
      var tail := s[1..];
      var l, h := TrimIsInfix(tail);
      assert tail[l..h] == s[l + 1..h + 1];
      lo, hi := l + 1, h + 1;
    } else if |s| > 0 && IsWhiteSpace(s[|s| - 1]) {
      var init := s[..|s| - 1];
      lo, hi := TrimIsInfix(init);
      assert init[lo..hi] == s[lo..hi];
    } else {
      lo, hi := 0, |s|;
      assert s[0..|s|] == s;
    }
  }

  /** Trimming brings in no character the original lacks. */
  lemma TrimKeepsOut(s: string, c: char)
    requires c !in s
    ensures c !in Trim(s)
  {
    var lo, hi := TrimIsInfix(s);
    assert forall k :: 0 <= k < hi - lo ==> Trim(s)[k] == s[lo + k];
  }

  /** ... which keeps every character that is not white space. */
  lemma {:induction false} TrimKeepsText(s: string, c: char)
    requires c in s && !IsWhiteSpace(c)
    ensures c in Trim(s)
    decreases |s|
  {
    if |s| > 0 && IsWhiteSpace(s[0]) {
      var k :| 0 <= k < |s| && s[k] == c;
      assert s[1..][k - 1] == c;
      TrimKeepsText(s[1..], c);
    } else if |s| > 0 && IsWhiteSpace(s[|s| - 1]) {
      var k :| 0 <= k < |s| && s[k] == c;
      assert s[..|s| - 1][k] == c;
      TrimKeepsText(s[..|s| - 1], c);
    }
  }

  function LowerChar(c: char): char {
    if 'A' <= c <= 'Z' then (c as int - 'A' as int + 'a' as int) as char else c
  }

  /** `String.prototype.toLowerCase`, for the ASCII letters. */
  function ToLower(s: string): (r: string)
    ensures |r| == |s| && forall i :: 0 <= i < |s| ==> r[i] == LowerChar(s[i])
  {
    seq(|s|, i requires 0 <= i < |s| => LowerChar(s[i]))
  }

  /** `String.prototype.split(sep)` for a one-character separator: the
      pieces between separators, empty ones included. */
  function Split(s: string, sep: char): (r: seq<string>)
    ensures |r| >= 1
    ensures forall i :: 0 <= i < |r| ==> sep !in r[i]
  {
    if |s| == 0 then [""]
    else
      var rest := Split(s[1..], sep);
      if s[0] == sep then [""] + rest else [[s[0]] + rest[0]] + rest[1..]
  }

  /** The position of the first `c` in `s`, or `|s|` when there is none. */
  function FindChar(s: string, c: char): (r: nat)
    ensures r <= |s| && c !in s[..r]
    ensures r < |s| ==> s[r] == c
  {
    if |s| == 0 then 0
    else if s[0] == c then 0
    else
      var r := 1 + FindChar(s[1..], c);
      assert s[..r] == [s[0]] + s[1..][..r - 1];
      r
  }

  /** `split` cuts at the first separator and splits the remainder again. */
  lemma {:induction false} SplitAt(s: string, sep: char)
    ensures var i := FindChar(s, sep);
      Split(s, sep) == if i == |s| then [s] else [s[..i]] + Split(s[i + 1..], sep)
  {
    if |s| > 0 && s[0] != sep {
      SplitAt(s[1..], sep);
      var i := FindChar(s[1..], sep);
      var rest := Split(s[1..], sep);
      assert FindChar(s, sep) == 1 + i;
      assert Split(s, sep) == [[s[0]] + rest[0]] + rest[1..];
      if i < |s[1..]| {
        assert s[1..][..i] == s[1..1 + i];
        assert [s[0]] + s[1..1 + i] == s[..1 + i];
        assert s[1..][i + 1..] == s[i + 2..];
        assert rest[1..] == Split(s[i + 2..], sep);
      } else {
        assert [s[0]] + s[1..] == s;
      }
    }
  }

  /** The first two pieces of `split`: the text before the first separator
      and, when there is a separator, the text from it to the next one. */
  lemma SplitPair(s: string, sep: char)
    ensures var i := FindChar(s, sep);
      && (|Split(s, sep)| >= 2 <==> sep in s)
      && Split(s, sep)[0] == s[..i]
      && (sep in s ==> Split(s, sep)[1] == s[i + 1..][..FindChar(s[i + 1..], sep)])
  {
    var i := FindChar(s, sep);
    SplitAt(s, sep);
    if i == |s| {
      assert s[..i] == s;
    } else {
      SplitAt(s[i + 1..], sep);
    }
  }

  /** `Array.prototype.join(sep)` for a one-character separator. */
  function Join(parts: seq<string>, sep: char): string
    requires |parts| >= 1
  {
    if |parts| == 1 then parts[0] else parts[0] + [sep] + Join(parts[1..], sep)
  }

  /** Splitting and joining back with the same separator gives the string. */
  lemma {:induction false} JoinSplit(s: string, sep: char)
    ensures Join(Split(s, sep), sep) == s
  {
    if |s| > 0 {
      var rest := Split(s[1..], sep);
      JoinSplit(s[1..], sep);
      if s[0] != sep {
        if |rest| == 1 {
        } else {
          assert Join(rest, sep) == rest[0] + [sep] + Join(rest[1..], sep);
          assert ([[s[0]] + rest[0]] + rest[1..])[1..] == rest[1..];
        }
      } else {
        assert ([""] + rest)[1..] == rest;
      }
    }
  }

  predicate OccursAt(s: string, pat: string, i: int) {
    0 <= i && i + |pat| <= |s| && s[i..i + |pat|] == pat
  }

  function IndexOfFrom(s: string, pat: string, from: nat): (r: int)
    ensures r == -1 || (from <= r && OccursAt(s, pat, r))
    ensures forall j :: from <= j && (r == -1 || j < r) ==> !OccursAt(s, pat, j)
    decreases |s| - from
  {
    if from + |pat| > |s| then -1
    else if s[from..from + |pat|] == pat then from
    else IndexOfFrom(s, pat, from + 1)
  }

  /** `String.prototype.indexOf(pat)`: the first occurrence, or -1. */
  function IndexOf(s: string, pat: string): (r: int)
    ensures r == -1 || OccursAt(s, pat, r)
    ensures forall j :: 0 <= j && (r == -1 || j < r) ==> !OccursAt(s, pat, j)
  {
    IndexOfFrom(s, pat, 0)
  }

  /** `String.prototype.includes(pat)`. */
  predicate Contains(s: string, pat: string) {
    IndexOf(s, pat) >= 0
  }

  function LastIndexOfDown(s: string, pat: string, i: int): (r: int)
    requires i >= -1
    ensures r == -1 || (r <= i && OccursAt(s, pat, r))
    ensures forall j :: r < j <= i ==> !OccursAt(s, pat, j)
    decreases i + 1
  {
    if i < 0 then -1
    else if OccursAt(s, pat, i) then i
    else LastIndexOfDown(s, pat, i - 1)
  }

  /** `String.prototype.lastIndexOf(pat, from)` for a non-negative `from`:
      the last occurrence starting at or before `from`, or -1. */
  function LastIndexOf(s: string, pat: string, from: nat): (r: int)
    ensures r == -1 || (r <= from && OccursAt(s, pat, r))
    ensures forall j :: r < j <= from ==> !OccursAt(s, pat, j)
  {
    var r := LastIndexOfDown(s, pat, Min(from, |s|));
    assert forall j :: |s| < j <= from ==> !OccursAt(s, pat, j);
    r
  }

  /** `String.prototype.replace(pat, rep)` with a string pattern and a
      replacement without `$` patterns: only the first occurrence changes. */
  function ReplaceFirst(s: string, pat: string, rep: string): (r: string)
    ensures IndexOf(s, pat) == -1 ==> r == s
    ensures IndexOf(s, pat) >= 0 ==>
      var i := IndexOf(s, pat); r == s[..i] + rep + s[i + |pat|..]
  {
    var i := IndexOf(s, pat);
    if i < 0 then s else s[..i] + rep + s[i + |pat|..]
  }

  /** A character in neither the string nor the replacement is not in the result. */
  lemma ReplaceFirstKeepsOut(s: string, pat: string, rep: string, c: char)
    requires c !in s && c !in rep
    ensures c !in ReplaceFirst(s, pat, rep)
  {
    var i := IndexOf(s, pat);
    if i >= 0 {
      assert c !in s[..i] && c !in s[i + |pat|..];
    }
  }

  /** `String.prototype.replaceAll(c, d)` for one-character strings. */
  function ReplaceAllChar(s: string, c: char, d: char): (r: string)
    ensures |r| == |s|
    ensures forall i :: 0 <= i < |s| ==> r[i] == if s[i] == c then d else s[i]
  {
    seq(|s|, i requires 0 <= i < |s| => if s[i] == c then d else s[i])
  }

  /** `s.replace(/c+$/, "")`: drops the run of `c` that ends the string. */
  function StripTrailing(s: string, c: char): (r: string)
    ensures |r| <= |s| && r == s[..|r|]
    ensures forall i :: |r| <= i < |s| ==> s[i] == c
    ensures |r| > 0 ==> r[|r| - 1] != c
  {
    if |s| > 0 && s[|s| - 1] == c then StripTrailing(s[..|s| - 1], c) else s
  }
}
