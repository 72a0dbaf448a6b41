/**
 * The storage-key sanitiser the client and the upload function share:
 * `replace(/[^a-zA-Z0-9_.-]/g, '_')`, and the client's follow-up `replace(/\s+/g, '_')`.
 * A regular expression without the `u` flag works on UTF-16 code units, so a character
 * outside the Basic Multilingual Plane is two disallowed units and becomes `__`.
 */
module StorageNames {
  import opened JsText

  /** The character class `[a-zA-Z0-9_.-]`. */
  predicate IsSafeChar(c: char) {
    ('a' <= c <= 'z') || ('A' <= c <= 'Z') || ('0' <= c <= '9') || c == '_' || c == '.' || c == '-'
  }

  predicate AllSafe(s: string) {
    forall i :: 0 <= i < |s| ==> IsSafeChar(s[i])
  }

  lemma AllSafeAppend(a: string, b: string)
    requires AllSafe(a) && AllSafe(b)
    ensures AllSafe(a + b)
  {
    assert forall i :: 0 <= i < |a + b| ==> (a + b)[i] == if i < |a| then a[i] else b[i - |a|];
  }

  /** What the replacement makes of one character: itself when allowed, otherwise one `_`
      per code unit. */
  function SanitizeChar(c: char): (r: string)
    ensures |r| == CodeUnits(c) && AllSafe(r)
    ensures IsSafeChar(c) <==> r == [c]
  {
    if IsSafeChar(c) then [c] else if CodeUnits(c) == 2 then "__" else "_"
  }

  /** `s.replace(/[^a-zA-Z0-9_.-]/g, '_')`. */
  function Sanitize(s: string): (r: string)
    ensures |r| == Utf16Length(s)
    ensures AllSafe(r)
  {
    if s == [] then []
    else
      var rest := Sanitize(s[1..]);
      AllSafeAppend(SanitizeChar(s[0]), rest);
      SanitizeChar(s[0]) + rest
  }

  /** Each character is replaced on its own. */
  lemma {:induction false} SanitizeAppend(a: string, b: string)
    ensures Sanitize(a + b) == Sanitize(a) + Sanitize(b)
  {
    if a != [] {
      assert (a + b)[0] == a[0] && (a + b)[1..] == a[1..] + b;
      SanitizeAppend(a[1..], b);
    } else {
      assert a + b == b;
    }
  }

  /** On text within the Basic Multilingual Plane the replacement works character by
      character: each allowed one is kept and each other one becomes `_`. */
  lemma {:induction false} SanitizeBmp(s: string)
    requires Utf16Length(s) == |s|
    ensures |Sanitize(s)| == |s|
    ensures forall i :: 0 <= i < |s| ==> Sanitize(s)[i] == if IsSafeChar(s[i]) then s[i] else '_'
  {
    if s != [] {
      assert CodeUnits(s[0]) == 1;
      SanitizeBmp(s[1..]);
      assert Sanitize(s) == SanitizeChar(s[0]) + Sanitize(s[1..]);
    }
  }

  /** The result holds only allowed characters and one per code unit of the input; a string
      that is already safe is left exactly as it is, so sanitising twice is sanitising
      once. */
  lemma {:induction false} SanitizeSpec(s: string)
    ensures AllSafe(Sanitize(s)) && |Sanitize(s)| == Utf16Length(s)
    ensures Sanitize(s) == s <==> AllSafe(s)
    ensures Sanitize(Sanitize(s)) == Sanitize(s)
  {
    if s != [] {
      SanitizeSpec(s[1..]);
      var r := Sanitize(s);
      assert r == SanitizeChar(s[0]) + Sanitize(s[1..]);
      if IsSafeChar(s[0]) {
        assert AllSafe(s) <==> AllSafe(s[1..]) by {
          assert forall i :: 1 <= i < |s| ==> s[1..][i - 1] == s[i];
        }
        assert r[1..] == Sanitize(s[1..]);
      } else {
        assert r[0] == '_' && s[0] != '_';
        assert !AllSafe(s);
      }
    }
    SafeIsFixed(Sanitize(s));
  }

  /** An emoji is two code units to the regular expression, so it becomes two `_`. */
  lemma SanitizeEmoji()
    ensures Sanitize("a\U{1F600}") == "a__"
  {
    assert Sanitize("\U{1F600}") == SanitizeChar('\U{1F600}') + Sanitize([]);
    SanitizeAppend("a", "\U{1F600}");
  }

  /** A safe string is its own sanitisation. */
  lemma {:induction false} SafeIsFixed(s: string)
    requires AllSafe(s)
    ensures Sanitize(s) == s
  {
    if s != [] {
      assert AllSafe(s[1..]) by {
        assert forall i :: 0 <= i < |s[1..]| ==> s[1..][i] == s[i + 1];
      }
      SafeIsFixed(s[1..]);
    }
  }

  /** `s.replace(/\s+/g, '_')`: every maximal run of white space becomes one `_`. */
  function CollapseWhitespace(s: string): (r: string)
    ensures forall i :: 0 <= i < |r| ==> !IsWhitespace(r[i])
    decreases |s|
  {
    if s == [] then []
    else if IsWhitespace(s[0]) then
      var rest := TrimStart(s);
      assert |rest| < |s|;
      "_" + CollapseWhitespace(rest)
    else [s[0]] + CollapseWhitespace(s[1..])
  }

  lemma {:induction false} CollapseWhitespaceIdentity(s: string)
    requires forall i :: 0 <= i < |s| ==> !IsWhitespace(s[i])
    ensures CollapseWhitespace(s) == s
    decreases |s|
  {
    if s != [] {
      CollapseWhitespaceIdentity(s[1..]);
    }
  }

  /** After sanitising no white space is left, so the second replacement never changes
      anything. */
  lemma CollapseAfterSanitize(s: string)
    ensures CollapseWhitespace(Sanitize(s)) == Sanitize(s)
  {
    CollapseWhitespaceIdentity(Sanitize(s));
  }
}
