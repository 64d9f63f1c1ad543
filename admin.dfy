/** Administration helpers (`adminRoutes.js`): the slug generated for an
    attribute from its name, the checks on an attribute before it is stored,
    and the check on the city id of the districts listing. */
module Admin {
  import opened Base
  import opened Text
  import opened Seqs

  // ---------------------------------------------------------------------------
  // Slug generation
  // ---------------------------------------------------------------------------

  /** The characters `[a-z0-9]` a slug keeps. */
  predicate IsSlugChar(c: char) { 'a' <= c <= 'z' || '0' <= c <= '9' }

  /** The combining diacritical marks, U+0300 to U+036F, removed after decomposition. */
  predicate IsCombiningMark(c: char) { '\U{0300}' <= c <= '\U{036F}' }

  /** Only slug characters and `_`. */
  predicate IsSlugText(s: string) { forall i :: 0 <= i < |s| ==> IsSlugChar(s[i]) || s[i] == '_' }

  /** No two adjacent `_`. */
  predicate NoDoubleUnderscore(s: string) { forall i :: 0 <= i < |s| - 1 ==> !(s[i] == '_' && s[i + 1] == '_') }

  /** Neither starts nor ends with `_`. */
  predicate Trimmed(s: string) { |s| > 0 ==> s[0] != '_' && s[|s| - 1] != '_' }

  /** The letters and digits of `s`, in order. */
  function SlugChars(s: string): string {
    if s == [] then [] else (if IsSlugChar(s[0]) then [s[0]] else []) + SlugChars(s[1..])
  }

  /** `.replace(/[\u0300-\u036f]/g, "")`. */
  function StripMarks(s: string): (r: string)
    ensures |r| <= |s|
    ensures forall i :: 0 <= i < |r| ==> !IsCombiningMark(r[i])
    ensures SlugChars(r) == SlugChars(s)
  {
    if s == [] then []
    else if IsCombiningMark(s[0]) then StripMarks(s[1..])
    else [s[0]] + StripMarks(s[1..])
  }

  /** Drops the run of non-slug characters `s` starts with. */
  function SkipRun(s: string): (r: string)
    ensures |r| <= |s| && r == s[|s| - |r|..]
    ensures r == [] || IsSlugChar(r[0])
    ensures SlugChars(r) == SlugChars(s)
  {
    if s == [] || IsSlugChar(s[0]) then s else SkipRun(s[1..])
  }

  /** `.replace(/[^a-z0-9]+/g, "_")`: each maximal run of other characters becomes one `_`. */
  function CollapseRuns(s: string): (r: string)
    ensures IsSlugText(r) && NoDoubleUnderscore(r)
    ensures r == [] <==> s == []
    ensures |r| > 0 && r[0] == '_' <==> |s| > 0 && !IsSlugChar(s[0])
    ensures SlugChars(r) == SlugChars(s)
    decreases |s|
  {
    if s == [] then []
    else if IsSlugChar(s[0]) then
      var rest := CollapseRuns(s[1..]);
      assert forall i :: 1 <= i < |[s[0]] + rest| ==> ([s[0]] + rest)[i] == rest[i - 1];
      [s[0]] + rest
    else
      var tail := SkipRun(s);
      var rest := CollapseRuns(tail);
      assert forall i :: 1 <= i < |"_" + rest| ==> ("_" + rest)[i] == rest[i - 1];
      "_" + rest
  }

  /** The `^_` half of the replacement: one `_` off the front. */
  function DropLeading(s: string): (r: string)
    ensures r == s || "_" + r == s
    ensures IsSlugText(s) ==> IsSlugText(r)
    ensures NoDoubleUnderscore(s) ==> NoDoubleUnderscore(r) && (|r| > 0 ==> r[0] != '_')
  {
    if |s| > 0 && s[0] == '_' then
      assert forall i :: 0 <= i < |s| - 1 ==> s[1..][i] == s[i + 1];
      assert "_" + s[1..] == s;
      s[1..]
    else s
  }

  /** The `_$` half of the replacement: one `_` off the end. */
  function DropTrailing(s: string): (r: string)
    ensures r == s || r + "_" == s
    ensures IsSlugText(s) ==> IsSlugText(r)
    ensures NoDoubleUnderscore(s) ==> NoDoubleUnderscore(r) && (|r| > 0 ==> r[|r| - 1] != '_')
    ensures |r| > 0 ==> r[0] == s[0]
  {
    if |s| > 0 && s[|s| - 1] == '_' then
      assert s[..|s| - 1] + "_" == s;
      s[..|s| - 1]
    else s
  }

  /** `.replace(/^_|_$/g, "")`: one `_` off each end. */
  function TrimUnderscores(s: string): (r: string)
    ensures r == s || "_" + r == s || r + "_" == s || "_" + r + "_" == s
    ensures NoDoubleUnderscore(s) ==> Trimmed(r)
    ensures IsSlugText(s) ==> IsSlugText(r)
    ensures NoDoubleUnderscore(s) ==> NoDoubleUnderscore(r)
  {
    var a := DropLeading(s);
    var r := DropTrailing(a);
    assert r + "_" == a && "_" + a == s ==> "_" + r + "_" == s;
    r
  }

  /** The slug generated from an attribute's name (after `toLowerCase` and
      `normalize('NFD')`): only `a`–`z`, `0`–`9` and single `_` between them. */
  function GenerateSlug(name: string): (r: string)
    ensures IsSlugText(r) && NoDoubleUnderscore(r) && Trimmed(r)
  {
    TrimUnderscores(CollapseRuns(StripMarks(ToLower(name))))
  }

  /** The slug keeps every letter and digit of the lower-cased name, in order, and nothing else. */
  lemma SlugKeepsLettersAndDigits(name: string)
    ensures SlugChars(GenerateSlug(name)) == SlugChars(ToLower(name))
  {
    var c := CollapseRuns(StripMarks(ToLower(name)));
    var r := TrimUnderscores(c);
    assert SlugChars("_") == [];
    if "_" + r == c {
      assert c[1..] == r;
    } else if r + "_" == c {
      SlugCharsAppend(r, "_");
    } else if "_" + r + "_" == c {
      assert c[1..] == r + "_";
      SlugCharsAppend(r, "_");
    }
  }

  lemma {:induction false} SlugCharsAppend(a: string, b: string)
    ensures SlugChars(a + b) == SlugChars(a) + SlugChars(b)
  {
    if a == [] {
      assert a + b == b;
    } else {
      var h := if IsSlugChar(a[0]) then [a[0]] else [];
      assert SlugChars(a + b) == h + SlugChars(a[1..] + b) by {
        assert (a + b)[0] == a[0] && (a + b)[1..] == a[1..] + b;
      }
      SlugCharsAppend(a[1..], b);
      assert h + (SlugChars(a[1..]) + SlugChars(b)) == (h + SlugChars(a[1..])) + SlugChars(b);
    }
  }

  /** Collapsing a text that is already a slug changes nothing. */
  lemma {:induction false} CollapseOfSlugText(s: string)
    requires IsSlugText(s) && NoDoubleUnderscore(s)
    ensures CollapseRuns(s) == s
  {
    if s != [] {
      var rest := s[1..];
      assert IsSlugText(rest) && NoDoubleUnderscore(rest) by {
        assert forall i :: 0 <= i < |rest| ==> rest[i] == s[i + 1];
      }
      assert CollapseRuns(s) == [s[0]] + CollapseRuns(rest) by {
        if !IsSlugChar(s[0]) {
          assert |s| == 1 || IsSlugChar(s[1]);
          assert SkipRun(s) == rest;
        }
      }
      CollapseOfSlugText(rest);
      HeadTail(s);
    }
  }

  /** Generating a slug from a generated slug gives it back. */
  lemma GenerateSlugIdempotent(name: string)
    ensures GenerateSlug(GenerateSlug(name)) == GenerateSlug(name)
  {
    var s := GenerateSlug(name);
    assert ToLower(s) == s;
    assert StripMarks(s) == s by {
      StripMarksOfSlugText(s);
    }
    CollapseOfSlugText(s);
  }

  lemma {:induction false} StripMarksOfSlugText(s: string)
    requires IsSlugText(s)
    ensures StripMarks(s) == s
  {
    if s != [] {
      StripMarksOfSlugText(s[1..]);
    }
  }

  /** `slug || generated`: a supplied, non-empty slug is used as it is. */
  function FinalSlug(slug: Option<string>, name: string): (r: string)
    ensures slug.Some? && slug.value != "" ==> r == slug.value
    ensures slug.None? || slug.value == "" ==> IsSlugText(r) && NoDoubleUnderscore(r) && Trimmed(r)
  {
    if slug.Some? && slug.value != "" then slug.value else GenerateSlug(name)
  }

  // ---------------------------------------------------------------------------
  // Attribute create / update
  // ---------------------------------------------------------------------------

  /** The request body; `None` is an absent field. */
  datatype AttributeInput = AttributeInput(
    subcategoryId: Option<int>, name: Option<string>, slug: Option<string>,
    attrType: Option<string>, options: Option<string>, required: Option<bool>)

  /** The row written to `attributes`. */
  datatype Attribute = Attribute(
    subcategoryId: int, name: string, slug: string,
    attrType: string, options: Option<string>, required: bool)

  datatype AdminError = MissingFields | InvalidCityId

  predicate PresentId(o: Option<int>) { o.Some? && o.value != 0 }

  predicate PresentText(o: Option<string>) { o.Some? && o.value != "" }

  /** The shared body of `POST /admin/attributes` and `PUT /admin/attributes/:id`
      up to the SQL statement: subcategory, name and type are required, the
      slug is supplied or generated, and `required` defaults to true. */
  function PrepareAttribute(input: AttributeInput): (r: Result<Attribute, AdminError>)
    ensures r.Err? <==> !PresentId(input.subcategoryId) || !PresentText(input.name) || !PresentText(input.attrType)
    ensures r.Err? ==> r.error == MissingFields
    ensures r.Ok? ==>
      r.value.subcategoryId == input.subcategoryId.value
      && r.value.name == input.name.value && r.value.attrType == input.attrType.value
      && r.value.options == input.options
    ensures r.Ok? ==>
      (input.required.None? ==> r.value.required)
      && (input.required.Some? ==> r.value.required == input.required.value)
    ensures r.Ok? && PresentText(input.slug) ==> r.value.slug == input.slug.value
    ensures r.Ok? && !PresentText(input.slug) ==> r.value.slug == GenerateSlug(input.name.value)
  {
    if !PresentId(input.subcategoryId) || !PresentText(input.name) || !PresentText(input.attrType) then
      Err(MissingFields)
    else
      Ok(Attribute(input.subcategoryId.value, input.name.value,
                   FinalSlug(input.slug, input.name.value),
                   input.attrType.value, input.options,
                   if input.required.None? then true else input.required.value))
  }

  /** A stored attribute always has a usable slug: the one supplied, or a generated one. */
  lemma PreparedSlugUsable(input: AttributeInput)
    requires PrepareAttribute(input).Ok?
    ensures var a := PrepareAttribute(input).value;
      a.slug != "" || (!PresentText(input.slug) && SlugChars(ToLower(input.name.value)) == [])
  {
    var a := PrepareAttribute(input).value;
    if !PresentText(input.slug) && a.slug == "" {
      SlugKeepsLettersAndDigits(input.name.value);
    }
  }

  // ---------------------------------------------------------------------------
  // Districts of a city
  // ---------------------------------------------------------------------------

  /** `GET /districts/:cityId`: refused when `parseInt(cityId)` is `NaN`. */
  function CheckCityId(cityId: string): (r: Result<(), AdminError>)
    ensures r.Err? <==> ParseInt(cityId).None?
    ensures r.Err? ==> r.error == InvalidCityId
  {
    if ParseInt(cityId).None? then Err(InvalidCityId) else Ok(())
  }

  /** What `parseInt` accepts: white space in front is skipped; a decimal
      digit passes whatever follows the digits, except a `0x` with no
      hexadecimal digit after it; a text that starts with anything other than
      white space, a digit or a sign is refused. */
  lemma CityIdLeadingDigits(cityId: string)
    ensures cityId != [] && IsSpace(cityId[0]) ==> CheckCityId(cityId) == CheckCityId(cityId[1..])
    ensures cityId != [] && IsDigit(cityId[0]) && !HasHexPrefix(cityId) ==> CheckCityId(cityId).Ok?
    ensures HasHexPrefix(cityId) ==> (CheckCityId(cityId).Ok? <==> |cityId| > 2 && DigitOf(cityId[2]) < 16)
    ensures cityId == [] || (!IsSpace(cityId[0]) && !IsDigit(cityId[0]) && cityId[0] != '-' && cityId[0] != '+') ==> CheckCityId(cityId).Err?
  {
    if cityId != [] && IsSpace(cityId[0]) {
      ParseIntSkipsSpace([cityId[0]], cityId[1..]);
      assert [cityId[0]] + cityId[1..] == cityId;
    }
  }
}
