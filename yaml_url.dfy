/** Classification of an API-docs URL as YAML, decided from its text alone:
    the lowercased URL must fully match the Java regular expression
    `.+[./]yaml(/.+)*`. */
module YamlUrl {

  /** The characters that Java's `.` does not match when DOTALL is off. */
  predicate IsLineTerminator(c: char) {
    c == '\n' || c == '\r' || c == '\U{85}' || c == '\U{2028}' || c == '\U{2029}'
  }

  /** Every character of `s` is matched by `.`. */
  predicate NoLineTerminator(s: string) {
    forall i :: 0 <= i < |s| ==> !IsLineTerminator(s[i])
  }

  /** Lowercasing of one character (ASCII letters only). */
  function LowerChar(c: char): char {
    if 'A' <= c <= 'Z' then (c as int + 32) as char else c
  }

  /** Lowercasing of a string, restricted to ASCII letters. */
  function Lowercase(s: string): (r: string)
    ensures |r| == |s|
    ensures forall i :: 0 <= i < |s| ==> r[i] == LowerChar(s[i])
  {
    seq(|s|, i requires 0 <= i < |s| => LowerChar(s[i]))
  }

  // ---------------------------------------------------------------------
  // Reference semantics: the regular expression, piece by piece.

  /** `.+` */
  ghost predicate DotPlus(s: string) {
    |s| >= 1 && NoLineTerminator(s)
  }

  /** `(/.+)*`: empty, or one group `/.+` followed by more groups. */
  ghost predicate GroupStar(t: string)
    decreases |t|
  {
    t == [] ||
    exists k :: 2 <= k <= |t| && t[0] == '/' && DotPlus(t[1..k]) && GroupStar(t[k..])
  }

  /** Full match of `.+[./]yaml(/.+)*`. */
  ghost predicate MatchesYamlRegex(s: string) {
    exists i :: 1 <= i && i + 5 <= |s| && DotPlus(s[..i]) &&
      (s[i] == '.' || s[i] == '/') && s[i + 1..i + 5] == "yaml" && GroupStar(s[i + 5..])
  }

  // ---------------------------------------------------------------------
  // The decision procedure.

  /** A separator followed by `yaml` at `i`, and then either the end of `s`
      or a `/` with at least one more character. */
  predicate MarkerAt(s: string, i: nat)
    requires i + 5 <= |s|
  {
    (s[i] == '.' || s[i] == '/') && s[i + 1..i + 5] == "yaml" &&
    (i + 5 == |s| || (i + 7 <= |s| && s[i + 5] == '/'))
  }

  /** Some position `j >= i` holds a marker. */
  predicate HasMarkerFrom(s: string, i: nat)
    decreases |s| - i
  {
    i + 5 <= |s| && (MarkerAt(s, i) || HasMarkerFrom(s, i + 1))
  }

  /** The lowercased URL fully matches `.+[./]yaml(/.+)*`. */
  predicate IsYaml(url: string) {
    var s := Lowercase(url);
    NoLineTerminator(s) && HasMarkerFrom(s, 1)
  }

  // ---------------------------------------------------------------------
  // Correctness of the decision procedure.

  lemma NoLineTerminatorConcat(a: string, b: string)
    ensures NoLineTerminator(a + b) <==> NoLineTerminator(a) && NoLineTerminator(b)
  {
    if NoLineTerminator(a + b) {
      forall i | 0 <= i < |a| ensures !IsLineTerminator(a[i]) {
        assert a[i] == (a + b)[i];
      }
      forall i | 0 <= i < |b| ensures !IsLineTerminator(b[i]) {
        assert b[i] == (a + b)[|a| + i];
      }
    }
  }

  /** Since `.` also matches `/`, the group star collapses to one shape. */
  lemma {:induction false} GroupStarShape(t: string)
    ensures GroupStar(t) <==> t == [] || (|t| >= 2 && t[0] == '/' && NoLineTerminator(t))
    decreases |t|
  {
    if t != [] {
      if GroupStar(t) {
        var k :| 2 <= k <= |t| && t[0] == '/' && DotPlus(t[1..k]) && GroupStar(t[k..]);
        GroupStarShape(t[k..]);
        assert t == [t[0]] + t[1..k] + t[k..];
        NoLineTerminatorConcat([t[0]], t[1..k]);
        NoLineTerminatorConcat([t[0]] + t[1..k], t[k..]);
      }
      if |t| >= 2 && t[0] == '/' && NoLineTerminator(t) {
        var k := |t|;
        assert t[k..] == [];
        assert t == [t[0]] + t[1..k];
        NoLineTerminatorConcat([t[0]], t[1..k]);
        assert DotPlus(t[1..k]);
        assert GroupStar(t[k..]);
      }
    }
  }

  lemma {:induction false} HasMarkerFromExists(s: string, i: nat)
    ensures HasMarkerFrom(s, i) <==> exists j :: i <= j && j + 5 <= |s| && MarkerAt(s, j)
    decreases |s| - i
  {
    if i + 5 <= |s| {
      HasMarkerFromExists(s, i + 1);
      if !MarkerAt(s, i) {
        forall j | i <= j && j + 5 <= |s| && MarkerAt(s, j) ensures i + 1 <= j {
        }
      }
    }
  }

  /** The regex split at separator position `i`, in terms of the marker. */
  lemma SplitAt(s: string, i: nat)
    requires 1 <= i && i + 5 <= |s|
    ensures (DotPlus(s[..i]) && (s[i] == '.' || s[i] == '/') && s[i + 1..i + 5] == "yaml" && GroupStar(s[i + 5..]))
        <==> NoLineTerminator(s) && MarkerAt(s, i)
  {
    GroupStarShape(s[i + 5..]);
    assert s == s[..i] + s[i..i + 5] + s[i + 5..];
    NoLineTerminatorConcat(s[..i], s[i..i + 5]);
    NoLineTerminatorConcat(s[..i] + s[i..i + 5], s[i + 5..]);
    if (s[i] == '.' || s[i] == '/') && s[i + 1..i + 5] == "yaml" {
      assert s[i..i + 5] == [s[i]] + "yaml";
      NoLineTerminatorConcat([s[i]], "yaml");
    }
  }

  /** `IsYaml` decides exactly the full-match of the regular expression on
      the lowercased URL. */
  lemma IsYamlMatchesRegex(url: string)
    ensures IsYaml(url) <==> MatchesYamlRegex(Lowercase(url))
  {
    var s := Lowercase(url);
    HasMarkerFromExists(s, 1);
    if IsYaml(url) {
      var j :| 1 <= j && j + 5 <= |s| && MarkerAt(s, j);
      SplitAt(s, j);
    }
    if MatchesYamlRegex(s) {
      var i :| 1 <= i && i + 5 <= |s| && DotPlus(s[..i]) &&
        (s[i] == '.' || s[i] == '/') && s[i + 1..i + 5] == "yaml" && GroupStar(s[i + 5..]);
      SplitAt(s, i);
    }
  }

  // ---------------------------------------------------------------------
  // Consequences: which URLs are YAML.

  lemma LowercaseConcat(a: string, b: string)
    ensures Lowercase(a + b) == Lowercase(a) + Lowercase(b)
  {
  }

  lemma LowercaseKeepsLineTerminators(s: string)
    ensures NoLineTerminator(Lowercase(s)) <==> NoLineTerminator(s)
  {
  }

  /** A URL made of a non-empty prefix, a `.` or `/`, the word `yaml` in any
      letter case, and an optional `/...` tail is YAML. */
  lemma {:induction false} YamlSuffixIsYaml(p: string, ext: string, t: string)
    requires |p| >= 1 && NoLineTerminator(p)
    requires |ext| == 5 && (ext[0] == '.' || ext[0] == '/') && Lowercase(ext[1..]) == "yaml"
    requires t == [] || (|t| >= 2 && t[0] == '/' && NoLineTerminator(t))
    ensures IsYaml(p + ext + t)
  {
    var le := Lowercase(ext);
    LowercaseConcat([ext[0]], ext[1..]);
    assert ext == [ext[0]] + ext[1..];
    assert le == [ext[0]] + "yaml";
    assert NoLineTerminator(le);
    LowercaseKeepsLineTerminators(ext);
    NoLineTerminatorConcat(p, ext);
    NoLineTerminatorConcat(p + ext, t);
    LowercaseConcat(p + ext, t);
    LowercaseConcat(p, ext);
    MarkerAfterPrefix(Lowercase(p), le, Lowercase(t));
    MarkerGivesYaml(p + ext + t, |p|);
  }

  lemma MarkerGivesYaml(url: string, j: nat)
    requires NoLineTerminator(url) && 1 <= j && j + 5 <= |url| && MarkerAt(Lowercase(url), j)
    ensures IsYaml(url)
  {
    LowercaseKeepsLineTerminators(url);
    HasMarkerFromExists(Lowercase(url), 1);
  }

  lemma MarkerAfterPrefix(lp: string, le: string, lt: string)
    requires |lp| >= 1 && |le| == 5 && (le[0] == '.' || le[0] == '/') && le[1..] == "yaml"
    requires lt == [] || (|lt| >= 2 && lt[0] == '/')
    ensures MarkerAt(lp + le + lt, |lp|)
  {
    var s, i := lp + le + lt, |lp|;
    assert s[i] == le[0];
    assert s[i + 1..i + 5] == le[1..];
    assert s[i + 5..] == lt;
  }

  /** Every lowercased letter of `s` differs from `y`. */
  predicate NoLetterY(s: string) {
    forall i :: 0 <= i < |s| ==> LowerChar(s[i]) != 'y'
  }

  lemma NoLetterYConcat(a: string, b: string)
    requires NoLetterY(a) && NoLetterY(b)
    ensures NoLetterY(a + b)
  {
    forall i | 0 <= i < |a + b| ensures LowerChar((a + b)[i]) != 'y' {
      if i < |a| { assert (a + b)[i] == a[i]; } else { assert (a + b)[i] == b[i - |a|]; }
    }
  }

  /** A URL without the letter `y` in either case is never YAML. */
  lemma {:induction false} NoLetterYNotYaml(url: string)
    requires NoLetterY(url)
    ensures !IsYaml(url)
  {
    var s := Lowercase(url);
    forall j | 1 <= j && j + 5 <= |s| ensures !MarkerAt(s, j) {
      assert s[j + 1..j + 5][0] == s[j + 1] == LowerChar(url[j + 1]) != 'y';
    }
    HasMarkerFromExists(s, 1);
  }

  /** The URLs of the plugin's acceptance tests, behind any host prefix that
      contains no `y`: the `.yaml` endpoints (with or without a group, in
      either letter case) are YAML, the plain endpoints are not. */
  lemma {:induction false} ApiDocsUrlExamples(host: string)
    requires |host| >= 1 && NoLineTerminator(host) && NoLetterY(host)
    ensures IsYaml(host + "/v3/api-docs.yaml")
    ensures IsYaml(host + "/v3/api-docs.yaml/groupA")
    ensures IsYaml(host + "/v3/api-docs.YAML")
    ensures !IsYaml(host + "/v3/api-docs")
    ensures !IsYaml(host + "/v3/api-docs/groupA")
  {
    var docs := "/v3/api-docs";
    assert NoLineTerminator(docs);
    NoLineTerminatorConcat(host, docs);
    assert NoLineTerminator("/groupA");
    YamlSuffixIsYaml(host + docs, ".yaml", "");
    assert host + docs + ".yaml" + "" == host + "/v3/api-docs.yaml";
    YamlSuffixIsYaml(host + docs, ".yaml", "/groupA");
    assert host + docs + ".yaml" + "/groupA" == host + "/v3/api-docs.yaml/groupA";
    YamlSuffixIsYaml(host + docs, ".YAML", "");
    assert host + docs + ".YAML" + "" == host + "/v3/api-docs.YAML";
    assert NoLetterY(docs);
    NoLetterYConcat(host, docs);
    NoLetterYNotYaml(host + docs);
    var group := "/v3/api-docs/groupA";
    assert NoLetterY(group);
    NoLetterYConcat(host, group);
    NoLetterYNotYaml(host + group);
  }
}
