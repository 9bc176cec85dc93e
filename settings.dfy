/**
 * Settings read from the environment at startup: the comma-separated list of
 * template ids and the guard that refuses to start without a server URL, a
 * token and at least one template id.
 */
module Settings {
  import opened Wrappers

  /** The characters Python's `str.strip()` removes (those for which `str.isspace()` holds). */
  predicate IsSpace(c: char)
  {
    || ('\t' <= c <= '\r')
    || ('\U{1C}' <= c <= '\U{1F}')
    || c == ' '
    || c == '\U{85}'
    || c == '\U{A0}'
    || c == '\U{1680}'
    || ('\U{2000}' <= c <= '\U{200A}')
    || c == '\U{2028}'
    || c == '\U{2029}'
    || c == '\U{202F}'
    || c == '\U{205F}'
    || c == '\U{3000}'
  }

  predicate AllSpace(s: string)
  {
    forall k :: 0 <= k < |s| ==> IsSpace(s[k])
  }

  /** Every character is a separator or whitespace: the input names no template. */
  predicate Blank(s: string)
  {
    forall k :: 0 <= k < |s| ==> s[k] == ',' || IsSpace(s[k])
  }

  /** `s.lstrip()`: the longest suffix of `s` that does not start with whitespace. */
  function TrimStart(s: string): (r: string)
    ensures |r| <= |s| && r == s[|s| - |r|..]
    ensures forall k :: 0 <= k < |s| - |r| ==> IsSpace(s[k])
    ensures r != [] ==> !IsSpace(r[0])
  {
    if s != [] && IsSpace(s[0]) then TrimStart(s[1..]) else s
  }

  /** `s.rstrip()`: the longest prefix of `s` that does not end with whitespace. */
  function TrimEnd(s: string): (r: string)
    ensures |r| <= |s| && r == s[..|r|]
    ensures forall k :: |r| <= k < |s| ==> IsSpace(s[k])
    ensures r != [] ==> !IsSpace(r[|r| - 1])
  {
    if s != [] && IsSpace(s[|s| - 1]) then TrimEnd(s[..|s| - 1]) else s
  }

  /** `r` is `s` with some leading and some trailing whitespace cut off. */
  predicate Trims(s: string, r: string)
  {
    exists a :: 0 <= a && a + |r| <= |s| && r == s[a..][..|r|] &&
      (forall k :: 0 <= k < a ==> IsSpace(s[k])) &&
      (forall k :: a + |r| <= k < |s| ==> IsSpace(s[k]))
  }

  /**
   * `s.strip()`: the contiguous part of `s` left between its leading and its
   * trailing whitespace.
   */
  function Strip(s: string): (r: string)
    ensures Trims(s, r)
    ensures r != [] ==> !IsSpace(r[0]) && !IsSpace(r[|r| - 1])
    ensures r == [] <==> AllSpace(s)
    ensures forall c :: c in r ==> c in s
  {
    var t := TrimStart(s);
    var r := TrimEnd(t);
    TrimsBoth(s, t, r);
    assert t != [] ==> t[0] == s[|s| - |t|];
    assert r == [] ==> t == [];
    r
  }

  lemma TrimsBoth(s: string, t: string, r: string)
    requires t == TrimStart(s) && r == TrimEnd(t)
    ensures Trims(s, r)
  {
    var a := |s| - |t|;
    assert r == s[a..][..|r|];
    forall k | a + |r| <= k < |s|
      ensures IsSpace(s[k])
    {
      assert s[k] == t[k - a];
    }
  }

  /** `s.split(",")`: the fields between commas, in order; there is always at least one. */
  function Split(s: string): (fields: seq<string>)
    ensures |fields| >= 1
    ensures forall i :: 0 <= i < |fields| ==> ',' !in fields[i]
  {
    if s == [] then [[]]
    else
      var rest := Split(s[1..]);
      if s[0] == ',' then [[]] + rest
      else [[s[0]] + rest[0]] + rest[1..]
  }

  /** `",".join(fields)`, the inverse of `Split`. */
  function Join(fields: seq<string>): string
    requires |fields| >= 1
  {
    if |fields| == 1 then fields[0] else fields[0] + "," + Join(fields[1..])
  }

  /** A well-formed template id: not empty, no surrounding whitespace, no separator. */
  predicate IsTemplateId(id: string)
  {
    id != [] && !IsSpace(id[0]) && !IsSpace(id[|id| - 1]) && ',' !in id
  }

  predicate NoSeparators(fields: seq<string>)
  {
    forall i :: 0 <= i < |fields| ==> ',' !in fields[i]
  }

  predicate AllTemplateIds(ids: seq<string>)
  {
    forall i :: 0 <= i < |ids| ==> IsTemplateId(ids[i])
  }

  /** The stripped fields that are not blank, in their original order. */
  function KeepNonBlank(fields: seq<string>): (ids: seq<string>)
    ensures |ids| <= |fields|
    ensures NoSeparators(fields) ==> AllTemplateIds(ids)
  {
    if fields == [] then []
    else
      NoSeparatorsTail(fields);
      if Strip(fields[0]) == [] then KeepNonBlank(fields[1..])
      else
        ConsTemplateId(Strip(fields[0]), KeepNonBlank(fields[1..]));
        [Strip(fields[0])] + KeepNonBlank(fields[1..])
  }

  lemma NoSeparatorsTail(fields: seq<string>)
    requires fields != []
    ensures NoSeparators(fields) ==> NoSeparators(fields[1..]) && ',' !in fields[0]
  {
    assert forall i :: 0 <= i < |fields[1..]| ==> fields[1..][i] == fields[i + 1];
  }

  lemma ConsTemplateId(id: string, ids: seq<string>)
    ensures AllTemplateIds([id] + ids) <==> IsTemplateId(id) && AllTemplateIds(ids)
  {
    var all := [id] + ids;
    assert all[0] == id;
    assert forall i :: 0 <= i < |ids| ==> all[i + 1] == ids[i];
    if IsTemplateId(id) && AllTemplateIds(ids) {
      forall i | 0 <= i < |all| ensures IsTemplateId(all[i]) {
        if i > 0 { assert all[i] == ids[i - 1]; }
      }
    }
  }

  /** `[tid.strip() for tid in raw.split(",") if tid.strip()]`. */
  function ParseTemplateIds(raw: string): (ids: seq<string>)
    ensures AllTemplateIds(ids)
  {
    KeepNonBlank(Split(raw))
  }

  /** `os.environ.get("TEAMCITY_TEMPLATE_IDS", "")`, parsed: an unset variable configures no template. */
  function TemplateIdsFromEnv(raw: Option<string>): (ids: seq<string>)
    ensures AllTemplateIds(ids)
    ensures raw.None? ==> ids == []
    ensures raw.Some? ==> ids == ParseTemplateIds(raw.value)
  {
    ParseTemplateIds(raw.GetOr(""))
  }

  /** Python truthiness of an environment variable: set and not empty. */
  predicate Truthy(v: Option<string>)
  {
    v.Some? && v.value != ""
  }

  /** `all([TEAMCITY_URL, TOKEN, TEMPLATE_IDS])`: the exporter refuses to start otherwise. */
  predicate StartupAllowed(url: Option<string>, token: Option<string>, templateIds: seq<string>)
  {
    Truthy(url) && Truthy(token) && templateIds != []
  }

  // ---------------------------------------------------------------------------
  // Splitting

  lemma {:induction false} SplitAppend(a: string, b: string)
    ensures Split(a + "," + b) == Split(a) + Split(b)
    decreases |a|
  {
    if a == [] {
      assert a + "," + b == [','] + b;
      assert ([','] + b)[1..] == b;
    } else {
      var s := a + "," + b;
      assert s[0] == a[0];
      assert s[1..] == a[1..] + "," + b;
      SplitAppend(a[1..], b);
    }
  }

  /** A string without commas is a single field. */
  lemma {:induction false} SplitField(s: string)
    requires ',' !in s
    ensures Split(s) == [s]
  {
    if s != [] {
      assert ',' !in s[1..] by {
        forall k | 0 <= k < |s[1..]| ensures s[1..][k] != ',' { assert s[1..][k] == s[k + 1]; }
      }
      SplitField(s[1..]);
      assert [s[0]] + s[1..] == s;
    }
  }

  /** Joining the fields with commas gives back the input. */
  lemma {:induction false} JoinSplit(s: string)
    ensures Join(Split(s)) == s
  {
    if s != [] {
      var rest := Split(s[1..]);
      JoinSplit(s[1..]);
      if s[0] == ',' {
        assert ([[]] + rest)[1..] == rest;
        assert s == [] + "," + s[1..];
      } else {
        var fields := [[s[0]] + rest[0]] + rest[1..];
        if |rest| == 1 {
          assert s == [s[0]] + s[1..];
        } else {
          assert fields[1..] == rest[1..];
          assert Join(rest) == rest[0] + "," + Join(rest[1..]);
          assert s == [s[0]] + s[1..];
        }
      }
    }
  }

  /** Splitting comma-free fields joined with commas gives back the fields. */
  lemma {:induction false} SplitJoin(fields: seq<string>)
    requires |fields| >= 1
    requires forall i :: 0 <= i < |fields| ==> ',' !in fields[i]
    ensures Split(Join(fields)) == fields
  {
    SplitField(fields[0]);
    if |fields| > 1 {
      SplitJoin(fields[1..]);
      SplitAppend(fields[0], Join(fields[1..]));
      assert fields == [fields[0]] + fields[1..];
    }
  }

  // ---------------------------------------------------------------------------
  // Parsing the template id list

  lemma {:induction false} KeepNonBlankAppend(a: seq<string>, b: seq<string>)
    ensures KeepNonBlank(a + b) == KeepNonBlank(a) + KeepNonBlank(b)
  {
    if a == [] {
      assert a + b == b;
    } else {
      assert (a + b)[0] == a[0];
      assert (a + b)[1..] == a[1..] + b;
      KeepNonBlankAppend(a[1..], b);
    }
  }

  /**
   * The ids listed before a comma come before the ids listed after it, each
   * group in its own order: parsing keeps the order of the input.
   */
  lemma ParseAppend(a: string, b: string)
    ensures ParseTemplateIds(a + "," + b) == ParseTemplateIds(a) + ParseTemplateIds(b)
  {
    SplitAppend(a, b);
    KeepNonBlankAppend(Split(a), Split(b));
  }

  /** A single field parses to its stripped text, or to nothing when it is blank. */
  lemma ParseField(s: string)
    requires ',' !in s
    ensures ParseTemplateIds(s) == if AllSpace(s) then [] else [Strip(s)]
  {
    SplitField(s);
  }

  predicate AllBlankFields(fields: seq<string>)
  {
    forall i :: 0 <= i < |fields| ==> AllSpace(fields[i])
  }

  lemma AllBlankFieldsCons(f: string, fields: seq<string>)
    ensures AllBlankFields([f] + fields) <==> AllSpace(f) && AllBlankFields(fields)
  {
    var all := [f] + fields;
    assert all[0] == f;
    assert forall i :: 0 <= i < |fields| ==> all[i + 1] == fields[i];
    if AllSpace(f) && AllBlankFields(fields) {
      forall i | 0 <= i < |all| ensures AllSpace(all[i]) {
        if i > 0 { assert all[i] == fields[i - 1]; }
      }
    }
  }

  lemma AllSpaceCons(c: char, s: string)
    ensures AllSpace([c] + s) <==> IsSpace(c) && AllSpace(s)
  {
    var cs := [c] + s;
    assert cs[0] == c;
    assert forall k :: 0 <= k < |s| ==> cs[k + 1] == s[k];
    if IsSpace(c) && AllSpace(s) {
      forall k | 0 <= k < |cs| ensures IsSpace(cs[k]) {
        if k > 0 { assert cs[k] == s[k - 1]; }
      }
    }
  }

  lemma BlankTail(s: string)
    requires s != []
    ensures Blank(s) <==> (s[0] == ',' || IsSpace(s[0])) && Blank(s[1..])
  {
    assert forall k :: 0 <= k < |s[1..]| ==> s[1..][k] == s[k + 1];
    if (s[0] == ',' || IsSpace(s[0])) && Blank(s[1..]) {
      forall k | 0 <= k < |s| ensures s[k] == ',' || IsSpace(s[k]) {
        if k > 0 { assert s[k] == s[1..][k - 1]; }
      }
    }
  }

  lemma {:induction false} KeepNonBlankEmpty(fields: seq<string>)
    ensures KeepNonBlank(fields) == [] <==> AllBlankFields(fields)
  {
    if fields != [] {
      var rest := fields[1..];
      KeepNonBlankEmpty(rest);
      AllBlankFieldsCons(fields[0], rest);
      assert [fields[0]] + rest == fields;
      if Strip(fields[0]) == [] {
        assert KeepNonBlank(fields) == KeepNonBlank(rest);
      } else {
        assert KeepNonBlank(fields) == [Strip(fields[0])] + KeepNonBlank(rest);
        assert !AllSpace(fields[0]);
      }
    }
  }

  lemma {:induction false} SplitBlank(s: string)
    ensures Blank(s) <==> AllBlankFields(Split(s))
  {
    if s != [] {
      var rest := Split(s[1..]);
      SplitBlank(s[1..]);
      BlankTail(s);
      if s[0] == ',' {
        AllBlankFieldsCons([], rest);
      } else {
        AllBlankFieldsCons([s[0]] + rest[0], rest[1..]);
        AllBlankFieldsCons(rest[0], rest[1..]);
        AllSpaceCons(s[0], rest[0]);
        assert [rest[0]] + rest[1..] == rest;
      }
    }
  }

  /** The list is empty exactly when the input holds nothing but commas and whitespace. */
  lemma ParseEmpty(raw: string)
    ensures ParseTemplateIds(raw) == [] <==> Blank(raw)
  {
    KeepNonBlankEmpty(Split(raw));
    SplitBlank(raw);
  }

  /**
   * The exporter starts exactly when the URL and the token are set and not
   * empty and the template list names at least one id; an unset, empty or
   * comma-and-blank-only template list stops it.
   */
  lemma StartupGuard(url: Option<string>, token: Option<string>, raw: Option<string>)
    ensures StartupAllowed(url, token, TemplateIdsFromEnv(raw))
        <==> Truthy(url) && Truthy(token) && !Blank(raw.GetOr(""))
  {
    var text := raw.GetOr("");
    ParseEmpty(text);
  }
}
