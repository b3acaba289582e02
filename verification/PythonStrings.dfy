/**
 The string functions of Python the model relies on: str.strip, and the slugs that name
 plugins and resource prefixes.
 */
module PythonStrings {
  // The characters str.isspace accepts.
  predicate IsSpace(c: char) {
    || '\U{0009}' <= c <= '\U{000D}'
    || '\U{001C}' <= c <= '\U{0020}'
    || c in {'\U{0085}', '\U{00A0}', '\U{1680}', '\U{2028}', '\U{2029}', '\U{202F}', '\U{205F}', '\U{3000}'}
    || '\U{2000}' <= c <= '\U{200A}'
  }

  // By code point.
  lemma SpaceIff(c: char)
    ensures IsSpace(c) <==>
              c as int in {9, 10, 11, 12, 13, 28, 29, 30, 31, 32, 133, 160, 5760, 8192, 8193, 8194, 8195, 8196, 8197, 8198, 8199,
                           8200, 8201, 8202, 8232, 8233, 8239, 8287, 12288}
  {}

  function StripLeft(s: string): (r: string)
    ensures r == "" || !IsSpace(r[0])
    ensures |r| <= |s| && r == s[|s| - |r|..]
    ensures forall i | 0 <= i < |s| - |r| :: IsSpace(s[i])
  {
    if s == "" || !IsSpace(s[0]) then s else StripLeft(s[1..])
  }

  function StripRight(s: string): (r: string)
    ensures r == "" || !IsSpace(r[|r| - 1])
    ensures |r| <= |s| && r == s[..|r|]
    ensures forall i | |r| <= i < |s| :: IsSpace(s[i])
  {
    if s == "" || !IsSpace(s[|s| - 1]) then s else StripRight(s[..|s| - 1])
  }

  function Strip(s: string): string {
    StripRight(StripLeft(s))
  }

  function Stripped(xs: seq<string>): (r: seq<string>)
    ensures |r| == |xs|
  {
    seq(|xs|, i requires 0 <= i < |xs| => Strip(xs[i]))
  }

  // Neither end is a space.
  predicate Trimmed(s: string) {
    s == "" || (!IsSpace(s[0]) && !IsSpace(s[|s| - 1]))
  }

  lemma StripIsTrimmed(s: string)
    ensures Trimmed(Strip(s))
    ensures Strip(s) == s <==> Trimmed(s)
  {
    var left := StripLeft(s);
    assert Strip(s) != "" ==> Strip(s)[0] == left[0];
  }

  // [a-z0-9]
  predicate IsAlnum(c: char) {
    'a' <= c <= 'z' || '0' <= c <= '9'
  }

  // [a-z0-9]+(-[a-z0-9]+)*
  predicate IsSlug(s: string) {
    && s != "" && IsAlnum(s[0]) && IsAlnum(s[|s| - 1])
    && (forall i | 0 <= i < |s| :: IsAlnum(s[i]) || s[i] == '-')
    && (forall i | 0 < i < |s| :: s[i] == '-' ==> s[i - 1] != '-')
  }

  // The same, as words joined by dashes.
  function Joined(words: seq<string>): string {
    if words == [] then "" else if |words| == 1 then words[0] else words[0] + "-" + Joined(words[1..])
  }

  predicate IsWord(word: string) {
    word != "" && forall c | c in word :: 'a' <= c <= 'z' || '0' <= c <= '9'
  }

  ghost predicate AreWords(words: seq<string>) {
    words != [] && forall word | word in words :: IsWord(word)
  }

  lemma {:induction false} WordsAreSlug(words: seq<string>)
    requires AreWords(words)
    ensures IsSlug(Joined(words))
  {
    assert words[0] in words;
    assert forall i | 0 <= i < |words[0]| :: words[0][i] in words[0];
    if |words| > 1 {
      assert forall w | w in words[1..] :: w in words;
      WordsAreSlug(words[1..]);
      SlugsJoin(words[0], Joined(words[1..]));
    }
  }

  lemma SlugsJoin(word: string, rest: string)
    requires word != "" && (forall i | 0 <= i < |word| :: IsAlnum(word[i])) && IsSlug(rest)
    ensures IsSlug(word + "-" + rest)
  {
    var s := word + "-" + rest;
    assert forall i | 0 <= i < |word| :: s[i] == word[i];
    assert s[|word|] == '-';
    assert forall i | 0 <= i < |rest| :: s[|word| + 1 + i] == rest[i];
  }

  lemma {:induction false} SlugIsWords(s: string) returns (words: seq<string>)
    requires IsSlug(s)
    ensures AreWords(words) && Joined(words) == s
    decreases |s|
  {
    if i :| 0 <= i < |s| && s[i] == '-' {
      var k := FirstDash(s);
      var rest := s[k + 1..];
      RestIsSlug(s, k);
      var others := SlugIsWords(rest);
      words := [s[..k]] + others;
      assert words[1..] == others && s == s[..k] + "-" + rest;
      hide IsSlug, IsWord;
      assert AreWords(words);
    } else {
      words := [s];
    }
  }

  lemma RestIsSlug(s: string, k: nat)
    requires IsSlug(s) && k < |s| - 1 && s[k] == '-' && s[k + 1] != '-'
    ensures IsSlug(s[k + 1..])
  {
    var rest := s[k + 1..];
    assert forall j | 0 <= j < |rest| :: rest[j] == s[k + 1 + j];
  }

  lemma FirstDash(s: string) returns (k: nat)
    requires IsSlug(s) && exists i :: 0 <= i < |s| && s[i] == '-'
    ensures 0 < k < |s| - 1 && s[k] == '-' && IsWord(s[..k]) && s[k + 1] != '-'
  {
    k := 0;
    while s[k] != '-'
      invariant k < |s| && exists i :: k <= i < |s| && s[i] == '-'
      invariant forall j | 0 <= j < k :: s[j] != '-'
      decreases |s| - k
    {
      k := k + 1;
    }
    assert forall c | c in s[..k] :: IsAlnum(c);
  }

  lemma SlugIff(s: string)
    ensures IsSlug(s) <==> exists words :: AreWords(words) && Joined(words) == s
  {
    if IsSlug(s) { var words := SlugIsWords(s); }
    if words :| AreWords(words) && Joined(words) == s { WordsAreSlug(words); }
  }

  const MAX_NAME := 128

  // The names a plugin may have, and a resource prefix unless it is empty.
  predicate ValidName(raw: string) {
    |Strip(raw)| <= MAX_NAME && IsSlug(Strip(raw))
  }

  lemma SlugIsTrimmed(s: string)
    requires IsSlug(s)
    ensures Trimmed(s) && Strip(s) == s
  {
    StripIsTrimmed(s);
  }
}
