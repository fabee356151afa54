/** Configured unsubscribe phrases: parsing, normalisation and exact matching of replies. */
module Unsubscribe {
  import opened Domain

  /** Lower case, exact for ASCII and the Cyrillic letters of Russian and its neighbours. */
  function LowerChar(ch: char): (l: char)
    ensures IsSpace(l) <==> IsSpace(ch)
  {
    if 'A' <= ch <= 'Z' then (ch as int + 32) as char
    else if 0x410 <= ch as int <= 0x42F then (ch as int + 32) as char
    else if 0x400 <= ch as int <= 0x40F then (ch as int + 80) as char
    else ch
  }

  function ToLower(s: string): (l: string)
    ensures |l| == |s| && forall i :: 0 <= i < |s| ==> l[i] == LowerChar(s[i])
  {
    if s == "" then "" else [LowerChar(s[0])] + ToLower(s[1..])
  }

  /** The words of s: its maximal runs without white space; `word` is the run being read. */
  function FieldsFrom(word: string, s: string): seq<string>
    decreases |s|
  {
    if s == "" then (if word == "" then [] else [word])
    else if IsSpace(s[0]) then (if word == "" then [] else [word]) + FieldsFrom("", s[1..])
    else FieldsFrom(word + [s[0]], s[1..])
  }

  function Fields(s: string): seq<string> {
    FieldsFrom("", s)
  }

  predicate IsWord(w: string) {
    w != "" && forall i :: 0 <= i < |w| ==> !IsSpace(w[i])
  }

  predicate AreWords(ws: seq<string>) {
    forall i :: 0 <= i < |ws| ==> IsWord(ws[i])
  }

  function Join(ws: seq<string>): string {
    if ws == [] then "" else if |ws| == 1 then ws[0] else ws[0] + " " + Join(ws[1..])
  }

  function Normalize(s: string): string {
    Join(Fields(ToLower(TrimSpace(s))))
  }

  // ---------------------------------------------------------------- splitting undoes joining

  lemma {:induction false} FieldsAreWords(word: string, s: string)
    requires word == "" || IsWord(word)
    ensures AreWords(FieldsFrom(word, s))
    decreases |s|
  {
    if s != "" {
      if IsSpace(s[0]) { FieldsAreWords("", s[1..]); } else { FieldsAreWords(word + [s[0]], s[1..]); }
    }
  }

  lemma {:induction false} FieldsReadWord(word: string, w: string, rest: string)
    requires forall i :: 0 <= i < |w| ==> !IsSpace(w[i])
    ensures FieldsFrom(word, w + rest) == FieldsFrom(word + w, rest)
    decreases |w|
  {
    if w == "" {
      assert w + rest == rest && word + w == word;
    } else {
      assert (w + rest)[1..] == w[1..] + rest;
      assert (word + [w[0]]) + w[1..] == word + w;
      FieldsReadWord(word + [w[0]], w[1..], rest);
    }
  }

  lemma FieldsBreak(w: string, rest: string)
    requires IsWord(w)
    ensures Fields(w + (" " + rest)) == [w] + Fields(rest)
  {
    FieldsReadWord("", w, " " + rest);
    assert "" + w == w;
    assert (" " + rest)[1..] == rest;
  }

  lemma FieldsOfWord(w: string)
    requires IsWord(w)
    ensures Fields(w) == [w]
  {
    FieldsReadWord("", w, "");
    assert "" + w == w && w + "" == w;
  }

  lemma {:induction false} FieldsOfJoin(ws: seq<string>)
    requires AreWords(ws)
    ensures Fields(Join(ws)) == ws
  {
    if |ws| == 1 {
      FieldsOfWord(ws[0]);
    } else if |ws| > 1 {
      FieldsOfJoin(ws[1..]);
      FieldsBreak(ws[0], Join(ws[1..]));
      assert Join(ws) == ws[0] + (" " + Join(ws[1..]));
    }
  }

  // ---------------------------------------------------------------- outer white space does not matter

  lemma {:induction false} FieldsSkipRight(word: string, s: string)
    requires s != "" && IsSpace(s[|s| - 1])
    ensures FieldsFrom(word, s) == FieldsFrom(word, s[..|s| - 1])
    decreases |s|
  {
    if |s| > 1 {
      assert s[1..][..|s| - 2] == s[..|s| - 1][1..];
      if IsSpace(s[0]) { FieldsSkipRight("", s[1..]); } else { FieldsSkipRight(word + [s[0]], s[1..]); }
    } else {
      assert s[1..] == "" && s[..0] == "";
    }
  }

  lemma {:induction false} FieldsOfTrimLeft(s: string)
    ensures Fields(ToLower(TrimLeft(s))) == Fields(ToLower(s))
  {
    if s != "" && IsSpace(s[0]) {
      FieldsOfTrimLeft(s[1..]);
      assert ToLower(s)[1..] == ToLower(s[1..]);
    }
  }

  lemma {:induction false} FieldsOfTrimRight(s: string)
    ensures Fields(ToLower(TrimRight(s))) == Fields(ToLower(s))
  {
    if s != "" && IsSpace(s[|s| - 1]) {
      FieldsOfTrimRight(s[..|s| - 1]);
      assert ToLower(s)[..|s| - 1] == ToLower(s[..|s| - 1]);
      FieldsSkipRight("", ToLower(s));
    }
  }

  /** The words that matching looks at. */
  function Words(s: string): seq<string> {
    Fields(ToLower(s))
  }

  lemma NormalizeJoinsWords(s: string)
    ensures Normalize(s) == Join(Words(s)) && Fields(Normalize(s)) == Words(s) && AreWords(Words(s))
  {
    FieldsOfTrimRight(TrimLeft(s));
    FieldsOfTrimLeft(s);
    FieldsAreWords("", ToLower(s));
    FieldsOfJoin(Words(s));
  }

  /** Two texts normalise alike exactly when they have the same lower-case words in the same order. */
  lemma NormalizeAgreesExactly(a: string, b: string)
    ensures Normalize(a) == Normalize(b) <==> Words(a) == Words(b)
  {
    NormalizeJoinsWords(a);
    NormalizeJoinsWords(b);
  }

  /** The same text, but for the case of ASCII and Cyrillic letters. */
  predicate SameButCase(a: string, b: string) {
    |a| == |b| && forall i :: 0 <= i < |a| ==> a[i] == b[i] || AreCases(a[i], b[i]) || AreCases(b[i], a[i])
  }

  predicate AreCases(upper: char, lower: char) {
    ('A' <= upper <= 'Z' && lower as int == upper as int + 32) ||
    ('А' <= upper <= 'Я' && lower as int == upper as int + 32) || (upper == 'Ё' && lower == 'ё')
  }

  lemma LowerOfCases(upper: char, lower: char)
    requires AreCases(upper, lower)
    ensures LowerChar(upper) == LowerChar(lower) == lower
  {
  }

  lemma LowerForgetsCase(a: string, b: string)
    requires SameButCase(a, b)
    ensures ToLower(a) == ToLower(b)
  {
    forall i | 0 <= i < |a| ensures ToLower(a)[i] == ToLower(b)[i] {
      if AreCases(a[i], b[i]) {
        LowerOfCases(a[i], b[i]);
      } else if AreCases(b[i], a[i]) {
        LowerOfCases(b[i], a[i]);
      }
    }
  }

  /** Neither case nor padding matters to matching, whatever is configured. */
  lemma FormDoesNotMatter(accepted: set<string>, a: string, b: string, left: string, right: string)
    requires SameButCase(a, b) && IsPadding(left) && IsPadding(right)
    ensures Matches(accepted, left + b + right) <==> Matches(accepted, a)
  {
    LowerForgetsCase(a, b);
    RightPaddingAddsNoWords(left + b, right);
    LeftPaddingAddsNoWords(left, b);
    NormalizeAgreesExactly(left + b + right, a);
  }

  lemma {:induction false} LeftPaddingAddsNoWords(left: string, s: string)
    requires IsPadding(left)
    ensures Words(left + s) == Words(s)
  {
    if left == "" {
      assert left + s == s;
    } else {
      assert (left + s)[1..] == left[1..] + s && ToLower(left + s)[1..] == ToLower((left + s)[1..]);
      LeftPaddingAddsNoWords(left[1..], s);
    }
  }

  lemma {:induction false} RightPaddingAddsNoWords(s: string, right: string)
    requires IsPadding(right)
    ensures Words(s + right) == Words(s)
    decreases |right|
  {
    if right == "" {
      assert s + right == s;
    } else {
      var all, less := s + right, right[..|right| - 1];
      assert all[..|all| - 1] == s + less && ToLower(all)[..|all| - 1] == ToLower(all[..|all| - 1]);
      FieldsSkipRight("", ToLower(all));
      RightPaddingAddsNoWords(s, less);
    }
  }

  // ---------------------------------------------------------------- configured phrases

  /** The parts between semicolons; `part` is the one being read. */
  function SplitFrom(part: string, raw: string): seq<string>
    decreases |raw|
  {
    if raw == "" then [part]
    else if raw[0] == ';' then [part] + SplitFrom("", raw[1..])
    else SplitFrom(part + [raw[0]], raw[1..])
  }

  function Rejoin(parts: seq<string>): string {
    if parts == [] then "" else if |parts| == 1 then parts[0] else parts[0] + ";" + Rejoin(parts[1..])
  }

  /** The parts, put together again with semicolons, are the text, and none holds a semicolon itself. */
  lemma {:induction false} SplitAtSemicolons(part: string, raw: string)
    requires ';' !in part
    ensures var parts := SplitFrom(part, raw);
            parts != [] && Rejoin(parts) == part + raw && forall p :: p in parts ==> ';' !in p
    decreases |raw|
  {
    if raw != "" {
      assert raw == [raw[0]] + raw[1..];
      if raw[0] == ';' {
        SplitAtSemicolons("", raw[1..]);
        var rest := SplitFrom("", raw[1..]);
        assert ([part] + rest)[1..] == rest;
        assert part + ";" + raw[1..] == part + raw;
        assert "" + raw[1..] == raw[1..];
      } else {
        SplitAtSemicolons(part + [raw[0]], raw[1..]);
        assert part + [raw[0]] + raw[1..] == part + raw;
      }
    } else {
      assert part + raw == part;
    }
  }

  function NonBlank(parts: seq<string>): seq<string> {
    if parts == [] then []
    else NonBlank(parts[..|parts| - 1]) + if TrimSpace(parts[|parts| - 1]) != "" then [TrimSpace(parts[|parts| - 1])]
    else []
  }

  method ParseUnsubscribeVariants(raw: string) returns (out: seq<string>)
    ensures var given := NonBlank(SplitFrom("", raw)); out == if given == [] then ["@"] else given
  {
    out := [];
    var parts := SplitFrom("", raw);
    for i := 0 to |parts|
      invariant out == NonBlank(parts[..i])
    {
      assert parts[..i + 1][..i] == parts[..i];
      var v := TrimSpace(parts[i]);
      if v != "" {
        out := out + [v];
      }
    }
    assert parts[..|parts|] == parts;
    if |out| == 0 {
      return ["@"];
    }
  }

  predicate Matches(accepted: set<string>, text: string) {
    if accepted == {} then Normalize(text) == Normalize("@") else Normalize(text) in accepted
  }

  predicate SomeVariant(variants: seq<string>, text: string) {
    exists i :: 0 <= i < |variants| && Words(variants[i]) != [] && Words(variants[i]) == Words(text)
  }

  predicate AllBlank(variants: seq<string>) {
    forall i :: 0 <= i < |variants| ==> Words(variants[i]) == []
  }

  /** The normalised non-blank phrases, or "@" if there is none. */
  ghost predicate IsUnsubscribeSet(accepted: set<string>, variants: seq<string>) {
    if AllBlank(variants) then accepted == {Normalize("@")}
    else forall n :: n in accepted <==> n != "" && exists i :: 0 <= i < |variants| && Normalize(variants[i]) == n
  }

  lemma BlankIsEmpty(s: string)
    ensures Normalize(s) == "" <==> Words(s) == []
  {
    NormalizeJoinsWords(s);
  }

  /** The non-empty normal forms of the first n phrases. */
  ghost predicate HasNormals(accepted: set<string>, variants: seq<string>, n: nat)
    requires n <= |variants|
  {
    forall s :: s in accepted <==> s != "" && exists i :: 0 <= i < n && Normalize(variants[i]) == s
  }

  lemma OneMoreNormal(accepted: set<string>, variants: seq<string>, n: nat)
    requires n < |variants| && HasNormals(accepted, variants, n)
    ensures var s := Normalize(variants[n]); HasNormals(if s != "" then accepted + {s} else accepted, variants, n + 1)
  {
  }

  lemma NormalsDecide(accepted: set<string>, variants: seq<string>)
    requires HasNormals(accepted, variants, |variants|)
    ensures IsUnsubscribeSet(if accepted == {} then {Normalize("@")} else accepted, variants)
  {
    forall i | 0 <= i < |variants| ensures Normalize(variants[i]) == "" <==> Words(variants[i]) == [] {
      BlankIsEmpty(variants[i]);
    }
    if !AllBlank(variants) {
      var i :| 0 <= i < |variants| && Words(variants[i]) != [];
      assert Normalize(variants[i]) in accepted;
    } else {
      assert forall s :: s !in accepted;
    }
  }

  method BuildUnsubscribeSet(variants: seq<string>) returns (accepted: set<string>)
    ensures IsUnsubscribeSet(accepted, variants)
  {
    accepted := {};
    for i := 0 to |variants|
      invariant HasNormals(accepted, variants, i)
    {
      OneMoreNormal(accepted, variants, i);
      var n := Normalize(variants[i]);
      if n != "" {
        accepted := accepted + {n};
      }
    }
    NormalsDecide(accepted, variants);
    if |accepted| == 0 {
      accepted := accepted + {Normalize("@")};
    }
  }

  /** With nothing configured at all, a reply matches exactly when its one word is "@". */
  lemma DefaultMatchesExactly(text: string)
    ensures Matches({}, text) <==> Words(text) == ["@"]
  {
    NormalizeAgreesExactly(text, "@");
    assert ToLower("@") == "@";
    FieldsOfWord("@");
  }

  /** A reply matches exactly when its words are those of a configured phrase, or of "@" if no phrase has words. */
  lemma MatchesExactly(accepted: set<string>, variants: seq<string>, text: string)
    requires IsUnsubscribeSet(accepted, variants)
    ensures Matches(accepted, text) <==>
            if AllBlank(variants) then Words(text) == Words("@") else SomeVariant(variants, text)
  {
    NormalizeAgreesExactly(text, "@");
    BlankIsEmpty(text);
    forall i | 0 <= i < |variants|
      ensures Normalize(variants[i]) == Normalize(text) <==> Words(variants[i]) == Words(text)
      ensures Normalize(variants[i]) == "" <==> Words(variants[i]) == []
    {
      NormalizeAgreesExactly(variants[i], text);
      BlankIsEmpty(variants[i]);
    }
    if !AllBlank(variants) {
      var i :| 0 <= i < |variants| && Words(variants[i]) != [];
      assert Normalize(variants[i]) in accepted;
    }
  }
}
