/**
 * The two pieces of logic in xlsx_to_parquet.py that do not touch pandas:
 * `parse_duration_specs`, which reads `name:unit` options into a map from
 * column name to one of the unit codes "h", "m" and "s", and the header
 * normalisation at the start of `read_excel_safely`.
 */
module XlsxToParquet {
  import opened Wrappers
  import Text

  /** The accepted spellings of each unit and the code each stands for. */
  const UnitAliases: map<string, string> := map[
    "h" := "h", "hr" := "h", "hrs" := "h", "hour" := "h", "hours" := "h",
    "m" := "m", "min" := "m", "mins" := "m", "minute" := "m", "minutes" := "m",
    "s" := "s", "sec" := "s", "secs" := "s", "second" := "s", "seconds" := "s"
  ]

  const UnitCodes: set<string> := {"h", "m", "s"}

  /** Every alias stands for a unit code, and every unit code stands for itself. */
  lemma AliasesAreCodes()
    ensures forall k :: k in UnitAliases ==> UnitAliases[k] in UnitCodes
    ensures forall u :: u in UnitCodes ==> u in UnitAliases && UnitAliases[u] == u
  {
  }

  /** The two `ValueError`s `parse_duration_specs` raises, with the offending text. */
  datatype SpecError = MissingColon(spec: string) | UnsupportedUnit(unit: string)

  /** One `name:unit` spec: the stripped name and the unit code, or the error. */
  function ParseSpec(spec: string): (r: Result<(string, string), SpecError>)
    ensures ':' !in spec <==> r == Err(MissingColon(spec))
    ensures r.Ok? ==> r.value.1 in UnitCodes
  {
    if ':' !in spec then Err(MissingColon(spec))
    else
      var (name, unit) := Text.SplitOnce(spec, ':');
      var unitKey := Text.Lower(Text.Strip(unit));
      if unitKey !in UnitAliases then Err(UnsupportedUnit(unit))
      else
        AliasesAreCodes();
        Ok((Text.Strip(name), UnitAliases[unitKey]))
  }

  /**
   * A spec is split at its first colon: for a name without a colon, the unit
   * is everything after it, looked up stripped and lower-cased, and the name
   * is kept stripped.
   */
  lemma ParseSpecJoined(name: string, unit: string)
    requires ':' !in name
    ensures var unitKey := Text.Lower(Text.Strip(unit));
            ParseSpec(name + ":" + unit) == if unitKey in UnitAliases then Ok((Text.Strip(name), UnitAliases[unitKey]))
                                            else Err(UnsupportedUnit(unit))
  {
    Text.SplitOnceJoin(name, ':', unit);
    assert name + ":" + unit == name + [':'] + unit;
  }

  /** A name with no colon and no surrounding whitespace, joined to an alias, parses back to that name and the alias's code. */
  lemma ParseSpecRoundTrip(name: string, alias: string)
    requires ':' !in name && (name != [] ==> !Text.IsSpace(name[0]) && !Text.IsSpace(name[|name| - 1]))
    requires alias in UnitAliases
    ensures ParseSpec(name + ":" + alias) == Ok((name, UnitAliases[alias]))
  {
    Text.SplitOnceJoin(name, ':', alias);
    assert name + ":" + alias == name + [':'] + alias;
    Text.StripUnchanged(name);
    AliasIsPlain(alias);
    PlainUnchanged(alias);
  }

  /** A non-empty word of lower-case letters is unchanged by `strip()` and by `lower()`. */
  lemma PlainUnchanged(w: string)
    requires w != [] && forall i :: 0 <= i < |w| ==> 'a' <= w[i] <= 'z'
    ensures Text.Strip(w) == w && Text.Lower(w) == w
  {
    Text.StripUnchanged(w);
    Text.LowerUnchanged(w);
  }

  /** The aliases are non-empty lower-case words. */
  lemma AliasIsPlain(alias: string)
    requires alias in UnitAliases
    ensures alias != [] && forall i :: 0 <= i < |alias| ==> 'a' <= alias[i] <= 'z'
  {
  }

  /** The unit is split at the first colon only: a colon inside the unit part makes it unsupported. */
  lemma ColonInUnitUnsupported(name: string, unit: string)
    requires ':' !in name && ':' in unit
    ensures ParseSpec(name + ":" + unit) == Err(UnsupportedUnit(unit))
  {
    Text.SplitOnceJoin(name, ':', unit);
    assert name + ":" + unit == name + [':'] + unit;
    var key := Text.Lower(Text.Strip(unit));
    assert ':' in key by {
      var i :| 0 <= i < |unit| && unit[i] == ':';
      assert Text.IsSubstring(Text.Strip(unit), unit);
      KeepsColon(unit, i);
    }
    forall k | k in UnitAliases ensures k != key {
      AliasIsPlain(k);
    }
  }

  /** Stripping keeps a colon, since a colon is not whitespace, and lower-casing keeps it too. */
  lemma KeepsColon(unit: string, i: nat)
    requires i < |unit| && unit[i] == ':'
    ensures ':' in Text.Lower(Text.Strip(unit))
  {
    var t := Text.TrimStart(unit);
    var s := Text.TrimEnd(t);
    var off := |unit| - |t|;
    assert i >= off;
    assert t[i - off] == ':';
    assert i - off < |s|;
    assert s[i - off] == ':';
    assert Text.Lower(s)[i - off] == ':';
  }

  /** What reading one spec gives: the stripped name and the unit code, or the error. */
  type Parsed = Result<(string, string), SpecError>

  function ParseEach(specs: seq<string>): (r: seq<Parsed>)
    ensures |r| == |specs| && forall i :: 0 <= i < |specs| ==> r[i] == ParseSpec(specs[i])
  {
    seq(|specs|, i requires 0 <= i < |specs| => ParseSpec(specs[i]))
  }

  /** The unit code of every successful reading lies in `UnitCodes`. */
  predicate CodesOnly(ps: seq<Parsed>) {
    forall i :: 0 <= i < |ps| && ps[i].Ok? ==> ps[i].value.1 in UnitCodes
  }

  /**
   * The readings `ps[..n]` taken in order into the result map: the first error
   * stops the reading, and a later spec for a name overrides an earlier one.
   */
  function Collect(ps: seq<Parsed>, n: nat): Result<map<string, string>, SpecError>
    requires n <= |ps|
  {
    if n == 0 then Ok(map[])
    else
      match Collect(ps, n - 1)
      case Err(e) => Err(e)
      case Ok(result) =>
        match ps[n - 1]
        case Err(e) => Err(e)
        case Ok(parsed) => Ok(result[parsed.0 := parsed.1])
  }

  /** `parse_duration_specs` on the whole list. */
  function ParseAll(specs: seq<string>): Result<map<string, string>, SpecError> {
    Collect(ParseEach(specs), |specs|)
  }

  /** The reading fails exactly when some spec is malformed, and then with the first malformed spec's error. */
  lemma {:induction false} CollectErr(ps: seq<Parsed>, n: nat)
    requires n <= |ps|
    ensures Collect(ps, n).Err? <==> exists i :: 0 <= i < n && ps[i].Err?
    ensures Collect(ps, n).Err? ==>
              exists i :: && 0 <= i < n && ps[i].Err? && Collect(ps, n).error == ps[i].error
                          && forall j :: 0 <= j < i ==> ps[j].Ok?
  {
    if n > 0 {
      CollectErr(ps, n - 1);
    }
  }

  /** A successful reading maps exactly the specs' stripped names, each to a unit code. */
  lemma {:induction false} CollectKeys(ps: seq<Parsed>, n: nat)
    requires n <= |ps| && CodesOnly(ps) && Collect(ps, n).Ok?
    ensures forall i :: 0 <= i < n ==> ps[i].Ok?
    ensures var result := Collect(ps, n).value;
            && (forall k :: k in result ==> result[k] in UnitCodes)
            && (forall k :: k in result <==> exists i :: 0 <= i < n && ps[i].value.0 == k)
  {
    if n > 0 {
      CollectKeys(ps, n - 1);
    }
  }

  /** Each name maps to the unit of the last spec that names it. */
  lemma {:induction false} CollectLastWins(ps: seq<Parsed>, n: nat, i: nat)
    requires i < n <= |ps| && Collect(ps, n).Ok? && ps[i].Ok?
    requires forall j :: i < j < n ==> ps[j].Ok? && ps[j].value.0 != ps[i].value.0
    ensures ps[i].value.0 in Collect(ps, n).value
    ensures Collect(ps, n).value[ps[i].value.0] == ps[i].value.1
  {
    if i < n - 1 {
      CollectLastWins(ps, n - 1, i);
    }
  }

  /** Once reading fails, it stays failed with the same error. */
  lemma {:induction false} CollectStaysErr(ps: seq<Parsed>, k: nat, n: nat)
    requires k <= n <= |ps| && Collect(ps, k).Err?
    ensures Collect(ps, n) == Collect(ps, k)
    decreases n - k
  {
    if k < n {
      CollectStaysErr(ps, k, n - 1);
    }
  }

  /** `parse_duration_specs` */
  method ParseDurationSpecs(specs: seq<string>) returns (r: Result<map<string, string>, SpecError>)
    ensures r == ParseAll(specs)
  {
    ghost var ps := ParseEach(specs);
    var result: map<string, string> := map[];
    for i := 0 to |specs|
      invariant Collect(ps, i) == Ok(result)
    {
      var spec := specs[i];
      if ':' !in spec {
        CollectStaysErr(ps, i + 1, |specs|);
        return Err(MissingColon(spec));
      }
      var (name, unit) := Text.SplitOnce(spec, ':');
      var unitKey := Text.Lower(Text.Strip(unit));
      ParseSpecSteps(spec);
      if unitKey !in UnitAliases {
        CollectStaysErr(ps, i + 1, |specs|);
        return Err(UnsupportedUnit(unit));
      }
      result := result[Text.Strip(name) := UnitAliases[unitKey]];
    }
    r := Ok(result);
  }

  /** `ParseSpec` step by step, as the loop of `parse_duration_specs` takes it. */
  lemma ParseSpecSteps(spec: string)
    requires ':' in spec
    ensures var (name, unit) := Text.SplitOnce(spec, ':');
            var unitKey := Text.Lower(Text.Strip(unit));
            ParseSpec(spec) == if unitKey !in UnitAliases then Err(UnsupportedUnit(unit))
                               else Ok((Text.Strip(name), UnitAliases[unitKey]))
  {
  }

  /** The header normalisation of `read_excel_safely`: no header or a negative one means none. */
  function HeaderArg(header: Option<int>): (r: Option<nat>)
    ensures r.None? <==> header.None? || header.value < 0
    ensures r.Some? ==> header == Some(r.value as int)
  {
    if header.None? || header.value < 0 then None else Some(header.value)
  }
}
