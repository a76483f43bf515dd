/**
 * String operations the plugin borrows from PHP and WordPress: `trim`, the
 * `Users/` prefix rewrite, the `.php` suffix test, `explode`, `basename`,
 * `strrpos`, `substr_replace`, `str_replace` and `trailingslashit`.
 * Strings are sequences of characters; PHP's bytes are not distinguished from
 * characters.
 */
module Text {
  import opened Wrappers

  /** The characters PHP's `trim` removes by default. */
  predicate IsTrimmable(c: char) {
    c == ' ' || c == '\t' || c == '\n' || c == '\r' || c == '\0' || c == '\U{0B}'
  }

  /** Neither end of `s` is a character `trim` would remove. */
  predicate IsTrimmed(s: string) {
    s == [] || (!IsTrimmable(s[0]) && !IsTrimmable(s[|s| - 1]))
  }

  /** The number of trimmable characters at the start of `s`. */
  function LeadingTrimmable(s: string): (n: nat)
    ensures n <= |s|
    decreases |s|
  {
    if s != [] && IsTrimmable(s[0]) then 1 + LeadingTrimmable(s[1..]) else 0
  }

  /** PHP's `trim`: trimmable characters are dropped from the front, then
      from the back, until neither end is one. */
  function Trim(s: string): (r: string)
    ensures IsTrimmed(r)
    decreases |s|
  {
    if s != [] && IsTrimmable(s[0]) then Trim(s[1..])
    else if s != [] && IsTrimmable(s[|s| - 1]) then Trim(s[..|s| - 1])
    else s
  }

  /** `r` is `s` with the `start` characters before it and everything after it
      removed, and every removed character is trimmable. */
  predicate IsTrimOf(s: string, r: string, start: int) {
    0 <= start <= |s| - |r| && r == s[start..start + |r|]
    && (forall k :: 0 <= k < start ==> IsTrimmable(s[k]))
    && (forall k :: start + |r| <= k < |s| ==> IsTrimmable(s[k]))
  }

  /** `trim` yields a slice of its argument, starting after the leading
      trimmable characters and dropping only trimmable characters. */
  lemma {:induction false} TrimIsSlice(s: string)
    ensures IsTrimOf(s, Trim(s), LeadingTrimmable(s))
    decreases |s|
  {
    var r := Trim(s);
    if s != [] && IsTrimmable(s[0]) {
      var t := s[1..];
      TrimIsSlice(t);
      var n := LeadingTrimmable(t);
      assert r == t[n..n + |r|];
      assert r == s[n + 1..n + 1 + |r|];
      forall k | 0 <= k < n + 1
        ensures IsTrimmable(s[k])
      {
        if k > 0 {
          assert s[k] == t[k - 1];
        }
      }
      forall k | n + 1 + |r| <= k < |s|
        ensures IsTrimmable(s[k])
      {
        assert s[k] == t[k - 1];
      }
    } else if s != [] && IsTrimmable(s[|s| - 1]) {
      var t := s[..|s| - 1];
      TrimIsSlice(t);
      assert LeadingTrimmable(t) == 0;
      assert r == t[0..|r|];
      assert r == s[0..|r|];
      forall k | |r| <= k < |s|
        ensures IsTrimmable(s[k])
      {
        if k < |s| - 1 {
          assert s[k] == t[k];
        }
      }
    }
  }

  /** Trimming a string that is already trimmed changes nothing. */
  lemma TrimOfTrimmed(s: string)
    requires IsTrimmed(s)
    ensures Trim(s) == s
  {
  }

  /** `Trim` is idempotent. */
  lemma TrimIdempotent(s: string)
    ensures Trim(Trim(s)) == Trim(s)
  {
    TrimOfTrimmed(Trim(s));
  }

  predicate HasPrefix(s: string, p: string) {
    |p| <= |s| && s[..|p|] == p
  }

  /** The rewrite `preg_replace('/^(Users\/)/', '', s)`: one leading `Users/` is dropped. */
  function StripUsersPrefix(s: string): (r: string)
    ensures HasPrefix(s, "Users/") ==> s == "Users/" + r
    ensures !HasPrefix(s, "Users/") ==> r == s
  {
    if HasPrefix(s, "Users/") then s[6..] else s
  }

  /** `in_array(substr(name, 0, 1), array('.', '..', '.DS_Store'))`: a one-character
      prefix can only equal `'.'`. */
  predicate StartsWithDot(s: string) {
    |s| > 0 && s[0] == '.'
  }

  /** `'.php' === substr(name, -4)`; a name shorter than four characters yields
      the whole name, which is never `.php`. */
  predicate EndsWithPhp(s: string) {
    |s| >= 4 && s[|s| - 4..] == ".php"
  }

  /** The prefix of `s` before its first `c` (all of `s` when there is none). */
  function UpTo(s: string, c: char): (r: string)
    ensures HasPrefix(s, r) && c !in r
    ensures |r| < |s| ==> s[|r|] == c
  {
    if s == [] || s[0] == c then [] else [s[0]] + UpTo(s[1..], c)
  }

  /** `explode(c, s)[1]`, the second field of `s` split on `c`; an undefined
      index reads as `null`, which interpolates as the empty string. */
  function SecondField(s: string, c: char): (r: string)
    ensures c !in r
    ensures c !in s ==> r == []
  {
    if s == [] then [] else if s[0] == c then UpTo(s[1..], c) else SecondField(s[1..], c)
  }

  /** When `i` is the first `c` in `s`, the second field is what follows it up
      to the next `c`. */
  lemma {:induction false} SecondFieldAfterFirst(s: string, c: char, i: nat)
    requires i < |s| && s[i] == c && c !in s[..i]
    ensures SecondField(s, c) == UpTo(s[i + 1..], c)
  {
    if i > 0 {
      assert s[0] == s[..i][0];
      assert s[1..][..i - 1] == s[..i][1..];
      assert s[1..][i - 1 + 1..] == s[i + 1..];
      SecondFieldAfterFirst(s[1..], c, i - 1);
    }
  }

  /** `array_pop(explode(c, s))`: the part of `s` after its last `c`. */
  function LastSegment(s: string, c: char): (r: string)
    ensures c !in r
    ensures |r| <= |s| && r == s[|s| - |r|..]
    ensures |r| < |s| ==> s[|s| - |r| - 1] == c
  {
    if s == [] || s[|s| - 1] == c then [] else LastSegment(s[..|s| - 1], c) + [s[|s| - 1]]
  }

  /** `rtrim(s, chars)`: drops every trailing character that is in `chars`. */
  function DropTrailing(s: string, chars: set<char>): (r: string)
    ensures HasPrefix(s, r)
    ensures r == [] || r[|r| - 1] !in chars
    ensures forall i :: |r| <= i < |s| ==> s[i] in chars
  {
    if s != [] && s[|s| - 1] in chars then DropTrailing(s[..|s| - 1], chars) else s
  }

  /** `r` is `base` with its trailing `/` and `\` characters replaced by exactly one `/`. */
  predicate SlashedForm(base: string, r: string) {
    |r| >= 1 && r[|r| - 1] == '/'
    && (|r| == 1 || (r[|r| - 2] != '/' && r[|r| - 2] != '\\'))
    && HasPrefix(base, r[..|r| - 1])
    && forall i :: |r| - 1 <= i < |base| ==> base[i] == '/' || base[i] == '\\'
  }

  /** WordPress's `trailingslashit`: strip every trailing `/` and `\`, then add one `/`. */
  function TrailingSlashIt(s: string): (r: string)
    ensures SlashedForm(s, r)
  {
    var stem := DropTrailing(s, {'/', '\\'});
    assert (stem + "/")[..|stem|] == stem;
    stem + "/"
  }

  /** PHP's `basename` on `/`-separated paths: the last component after
      trailing separators are dropped. */
  function Basename(s: string): (r: string)
    ensures '/' !in r
  {
    LastSegment(DropTrailing(s, {'/'}), '/')
  }

  /** The basename is the whole last component: all of the path, its trailing
      slashes dropped, after the last `/` that remains. */
  lemma BasenameIsLastComponent(s: string)
    ensures var stem := DropTrailing(s, {'/'});
      var r := Basename(s);
      |r| <= |stem| && r == stem[|stem| - |r|..] && (|r| < |stem| ==> stem[|stem| - |r| - 1] == '/')
  {
    var stem := DropTrailing(s, {'/'});
    var r := LastSegment(stem, '/');
    assert Basename(s) == r;
    assert |r| <= |stem| && r == stem[|stem| - |r|..];
  }

  /** `t` occurs in `s` at offset `k`. */
  predicate OccursAt(s: string, t: string, k: int) {
    0 <= k && k + |t| <= |s| && s[k..k + |t|] == t
  }

  lemma BasenameOccurs(s: string)
    ensures OccursAt(s, Basename(s), |DropTrailing(s, {'/'})| - |Basename(s)|)
  {
    var stem := DropTrailing(s, {'/'});
    var b := Basename(s);
    assert stem[|stem| - |b|..] == b;
    assert s[..|stem|] == stem;
    assert s[|stem| - |b|..|stem|] == stem[|stem| - |b|..];
  }

  /** The search behind `strrpos(s, t)`: the largest offset `<= from` at which `t` occurs. */
  function LastIndexFrom(s: string, t: string, from: int): (r: Option<nat>)
    requires from + |t| <= |s|
    decreases from + 1
    ensures r.Some? ==> r.value <= from && OccursAt(s, t, r.value)
    ensures forall j :: (if r.Some? then r.value else -1) < j <= from ==> !OccursAt(s, t, j)
  {
    if from < 0 then None
    else if s[from..from + |t|] == t then Some(from)
    else LastIndexFrom(s, t, from - 1)
  }

  /** PHP's `strrpos(s, t)`: the offset of the last occurrence of `t` in `s`, if any. */
  function LastIndexOf(s: string, t: string): (r: Option<nat>)
    ensures r.Some? ==> OccursAt(s, t, r.value)
    ensures forall j :: (if r.Some? then r.value else -1) < j ==> !OccursAt(s, t, j)
  {
    if |t| > |s| then None else LastIndexFrom(s, t, |s| - |t|)
  }

  /** `str_replace(' ', '%20', s)`. */
  function EncodeSpaces(s: string): (r: string)
    ensures ' ' !in r
    ensures ' ' !in s ==> r == s
    ensures |r| == |s| + 2 * multiset(s)[' ']
  {
    if s == [] then []
    else
      assert s == [s[0]] + s[1..];
      (if s[0] == ' ' then "%20" else [s[0]]) + EncodeSpaces(s[1..])
  }

  /** `str_replace` works character by character: encoding distributes over concatenation. */
  lemma {:induction false} EncodeSpacesAppend(a: string, b: string)
    ensures EncodeSpaces(a + b) == EncodeSpaces(a) + EncodeSpaces(b)
    decreases |a|
  {
    if a != [] {
      var head := if a[0] == ' ' then "%20" else [a[0]];
      var t := a[1..] + b;
      assert a + b == [a[0]] + t;
      assert ([a[0]] + t)[1..] == t;
      assert EncodeSpaces(a + b) == head + EncodeSpaces(t);
      assert EncodeSpaces(a) == head + EncodeSpaces(a[1..]);
      EncodeSpacesAppend(a[1..], b);
    } else {
      assert a + b == b;
    }
  }

  /** A space becomes `%20`; any other character is kept. */
  lemma EncodeSpacesChar(c: char)
    ensures EncodeSpaces([c]) == if c == ' ' then "%20" else [c]
  {
    assert [c][1..] == [];
  }
}
