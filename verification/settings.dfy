/**
 * The settings translator shared, line for line, by both versions of the
 * plugin: application settings are a flat mapping whose database entries are
 * named `DATABASE_<NAME>`; the translator turns them into connection
 * parameters named `<name>` and back, renders the connection URL, and expands
 * a nested `DATABASE` block into flat keys.
 */
module Settings {
  import opened Wrappers
  import opened Ascii

  /** A settings value: a string, an integer, or a nested mapping. */
  datatype Value = Str(text: string) | Int(number: int) | Nested(entries: map<string, Value>)

  /** Every database setting starts with this prefix. */
  const Prefix: string := "DATABASE_"

  /** The key of the nested settings block. It lacks the trailing underscore. */
  const NestedKey: string := "DATABASE"

  /** `s.startswith(p)` */
  predicate StartsWith(s: string, p: string) { |p| <= |s| && s[..|p|] == p }

  /** `pat` occurs in `s` starting at index `i`. */
  predicate OccursAt(s: string, pat: string, i: nat)
  {
    i + |pat| <= |s| && s[i..i + |pat|] == pat
  }

  predicate Occurs(s: string, pat: string)
  {
    exists i: nat | i <= |s| :: OccursAt(s, pat, i)
  }

  /** `s.replace(pat, rep, 1)`: replaces the leftmost occurrence of `pat`, if any. */
  function ReplaceFirst(s: string, pat: string, rep: string): (r: string)
    requires pat != []
    ensures StartsWith(s, pat) ==> r == rep + s[|pat|..]
    ensures !Occurs(s, pat) ==> r == s
    decreases |s|
  {
    if |s| < |pat| then s
    else if s[..|pat|] == pat then
      assert OccursAt(s, pat, 0);
      rep + s[|pat|..]
    else
      assert !Occurs(s, pat) ==> !Occurs(s[1..], pat) by {
        forall i: nat | OccursAt(s[1..], pat, i) ensures OccursAt(s, pat, i + 1) {
          assert s[1..][i..i + |pat|] == s[i + 1..i + 1 + |pat|];
        }
      }
      [s[0]] + ReplaceFirst(s[1..], pat, rep)
  }

  /** The connection-parameter name of a settings key: first `DATABASE_` removed, then lower-cased. */
  function ParamName(k: string): (p: string)
    ensures NoUpper(p)
    ensures StartsWith(k, Prefix) ==> |p| == |k| - |Prefix|
  {
    Lower(ReplaceFirst(k, Prefix, ""))
  }

  /** The settings key of a connection parameter: `DATABASE_` + the upper-cased name. */
  function SettingKey(p: string): (k: string)
    ensures StartsWith(k, Prefix) && |k| == |Prefix| + |p| && NoLower(k[|Prefix|..])
    ensures forall i :: 0 <= i < |p| ==> k[|Prefix| + i] == UpperChar(p[i])
  {
    Prefix + Upper(p)
  }

  predicate IsDatabaseKey(k: string) { StartsWith(k, Prefix) }

  /**
   * Keys that `from_settings` folds onto the same parameter carry the same
   * value, so the result does not depend on the mapping's iteration order.
   */
  predicate Unambiguous(s: map<string, Value>)
  {
    forall k1, k2 :: k1 in s && k2 in s && IsDatabaseKey(k1) && IsDatabaseKey(k2) && ParamName(k1) == ParamName(k2) ==> s[k1] == s[k2]
  }

  /** Keys that `to_settings` folds onto the same settings key carry the same value. */
  predicate UpperUnambiguous(d: map<string, Value>)
  {
    forall k1, k2 :: k1 in d && k2 in d && SettingKey(k1) == SettingKey(k2) ==> d[k1] == d[k2]
  }

  /** `from_settings`: keep the `DATABASE_` entries, keyed by their parameter names. */
  function FromSettings(s: map<string, Value>): (r: map<string, Value>)
    requires Unambiguous(s)
    ensures forall k {:trigger ParamName(k) in r} :: k in s && IsDatabaseKey(k) ==> ParamName(k) in r && r[ParamName(k)] == s[k]
    ensures forall p :: p in r ==> exists k :: k in s && IsDatabaseKey(k) && ParamName(k) == p
  {
    map k | k in s && IsDatabaseKey(k) :: ParamName(k) := s[k]
  }

  /** `to_settings`: every entry, keyed by its settings key. */
  function ToSettings(d: map<string, Value>): (r: map<string, Value>)
    requires UpperUnambiguous(d)
    ensures forall k {:trigger SettingKey(k) in r} :: k in d ==> SettingKey(k) in r && r[SettingKey(k)] == d[k]
    ensures forall j :: j in r ==> exists k :: k in d && SettingKey(k) == j
  {
    map k | k in d :: SettingKey(k) := d[k]
  }

  /** `d.setdefault(k, v)`: add `k` with `v` only when `k` is absent. */
  function SetDefault(s: map<string, Value>, k: string, v: Value): (r: map<string, Value>)
    ensures r.Keys == s.Keys + {k}
    ensures r[k] == (if k in s then s[k] else v)
    ensures forall j :: j in s && j != k ==> r[j] == s[j]
  {
    if k in s then s else s[k := v]
  }

  /** The keys the plugin gives a default. */
  const HostKey: string := "DATABASE_HOST"
  const PortKey: string := "DATABASE_PORT"
  const TypeKey: string := "DATABASE_TYPE"
  const DriverKey: string := "DATABASE_DRIVER"

  /** The defaults of the plugin: a local SQL Server reached through `pymssql`. */
  const Defaults: map<string, Value> := map[
    HostKey := Str("localhost"), PortKey := Int(1433), TypeKey := Str("mssql"), DriverKey := Str("pymssql")]

  /** The four default keys are distinct, and none of them is the key of the nested block. */
  lemma DefaultKeysDistinct()
    ensures HostKey != PortKey && HostKey != TypeKey && HostKey != DriverKey
    ensures PortKey != TypeKey && PortKey != DriverKey && TypeKey != DriverKey
    ensures Defaults.Keys == {HostKey, PortKey, TypeKey, DriverKey} && NestedKey !in Defaults
  {
    assert HostKey[9] == 'H' && PortKey[9] == 'P' && TypeKey[9] == 'T' && DriverKey[9] == 'D';
    assert |NestedKey| == 8 && |HostKey| == 13 && |PortKey| == 13 && |TypeKey| == 13 && |DriverKey| == 15;
  }

  /** The error `to_settings` raises when the `DATABASE` entry is not a mapping. */
  datatype ExpandError = NotAMapping(found: Value)

  predicate NestedBlockTranslatable(s: map<string, Value>)
  {
    NestedKey in s && s[NestedKey].Nested? ==> UpperUnambiguous(s[NestedKey].entries)
  }

  /** `k` is the settings key of some entry in the nested `DATABASE` block of `s`. */
  predicate FromBlock(s: map<string, Value>, k: string)
  {
    NestedKey in s && s[NestedKey].Nested? && exists n :: n in s[NestedKey].entries && SettingKey(n) == k
  }

  /**
   * `if 'DATABASE' in settings: settings.update(to_settings(settings['DATABASE']))`,
   * as a function of the settings before the step.
   */
  function ExpandNested(s: map<string, Value>): (r: Result<map<string, Value>, ExpandError>)
    requires NestedBlockTranslatable(s)
    ensures NestedKey !in s ==> r == Ok(s)
    ensures r.Err? <==> NestedKey in s && !s[NestedKey].Nested?
    ensures r.Err? ==> r.error == NotAMapping(s[NestedKey])
    ensures r.Ok? && NestedKey in s ==>
      forall n :: n in s[NestedKey].entries ==> SettingKey(n) in r.value && r.value[SettingKey(n)] == s[NestedKey].entries[n]
    ensures r.Ok? ==> forall k :: k in s && !FromBlock(s, k) ==> k in r.value && r.value[k] == s[k]
    ensures r.Ok? ==> forall k :: k in r.value ==> k in s || FromBlock(s, k)
    ensures r.Ok? && NestedKey in s ==> NestedKey in r.value && r.value[NestedKey] == s[NestedKey]
  {
    if NestedKey !in s then Ok(s)
    else match s[NestedKey]
      case Nested(block) => Ok(s + ToSettings(block))
      case _ => Err(NotAMapping(s[NestedKey]))
  }

  // ---------------------------------------------------------------------
  // The connection URL, rendered the way `str.format` fills a template.

  /** A piece of a format template: literal text or a `{name}` replacement field. */
  datatype Piece = Lit(text: string) | Field(name: string)

  /** `'{type}+{driver}://{username}:{password}@{host}:{port}/{database}'` */
  const UrlTemplate: seq<Piece> := [
    Field("type"), Lit("+"), Field("driver"), Lit("://"), Field("username"), Lit(":"),
    Field("password"), Lit("@"), Field("host"), Lit(":"), Field("port"), Lit("/"), Field("database")]

  /** `str(v)` for a value that is a string or an integer. */
  function Render(v: Value): (r: string)
    requires !v.Nested?
    ensures v.Str? ==> r == v.text
    ensures v.Int? ==> |r| >= 1 && (v.number < 0 <==> r[0] == '-')
    ensures v.Int? && v.number >= 0 ==> AllDigits(r) && DecimalValue(r) == v.number
    ensures v.Int? && v.number < 0 ==> AllDigits(r[1..]) && DecimalValue(r[1..]) == -v.number
    ensures v.Int? && v.number == 0 ==> r == "0"
    ensures v.Int? && v.number > 0 ==> r[0] != '0'
    ensures v.Int? && v.number < 0 ==> |r| >= 2 && r[1] != '0'
  {
    match v
    case Str(t) => t
    case Int(n) => IntToDecimal(n)
  }

  /** Every field of `t` that `p` supplies has a string or integer value. */
  predicate FieldsRenderable(t: seq<Piece>, p: map<string, Value>)
  {
    forall i :: 0 <= i < |t| && t[i].Field? && t[i].name in p ==> !p[t[i].name].Nested?
  }

  /** `template.format(**p)`: fields are filled left to right; the first missing one raises KeyError. */
  function Format(t: seq<Piece>, p: map<string, Value>): (r: Result<string, string>)
    requires FieldsRenderable(t, p)
    ensures r.Err? <==> exists i :: 0 <= i < |t| && t[i].Field? && t[i].name !in p
    ensures r.Err? ==> r.error !in p && exists i :: 0 <= i < |t| && t[i] == Field(r.error) &&
                                                      forall j :: 0 <= j < i && t[j].Field? ==> t[j].name in p
  {
    if t == [] then Ok("")
    else
      assert FieldsRenderable(t[1..], p) by {
        forall i | 0 <= i < |t| - 1 ensures t[1..][i] == t[i + 1] { }
      }
      var rest := Format(t[1..], p);
      assert forall i :: 0 < i < |t| ==> t[i] == t[1..][i - 1];
      match t[0]
      case Lit(x) =>
        if rest.Err? then
          ghost var i :| 0 <= i < |t[1..]| && t[1..][i] == Field(rest.error) &&
                         forall j :: 0 <= j < i && t[1..][j].Field? ==> t[1..][j].name in p;
          assert t[i + 1] == Field(rest.error);
          rest
        else Ok(x + rest.value)
      case Field(f) =>
        if f !in p then Err(f)
        else if rest.Err? then
          ghost var i :| 0 <= i < |t[1..]| && t[1..][i] == Field(rest.error) &&
                         forall j :: 0 <= j < i && t[1..][j].Field? ==> t[1..][j].name in p;
          assert t[i + 1] == Field(rest.error);
          rest
        else Ok(Render(p[f]) + rest.value)
  }

  /** The settings can be translated and every URL field they supply is a string or an integer. */
  predicate Translatable(s: map<string, Value>)
  {
    Unambiguous(s) && FieldsRenderable(UrlTemplate, FromSettings(s))
  }

  /** `connection_url(settings)`: translate, then fill the URL template. */
  function ConnectionUrl(s: map<string, Value>): (r: Result<string, string>)
    requires Translatable(s)
    ensures r.Err? ==> Field(r.error) in UrlTemplate && r.error !in FromSettings(s)
    ensures r.Ok? ==> forall f :: Field(f) in UrlTemplate ==> f in FromSettings(s)
  {
    Format(UrlTemplate, FromSettings(s))
  }
}

/** What the translator promises: filtering, key shape, round trips and the exact URL. */
module SettingsProperties {
  import opened Wrappers
  import opened Ascii
  import opened Settings

  /** A settings key of the conventional shape `DATABASE_` + a name with no lower-case letter. */
  predicate IsConventionalKey(k: string)
  {
    IsDatabaseKey(k) && NoLower(k[|Prefix|..])
  }

  /** Only the leading prefix is removed from a `DATABASE_` key. */
  lemma ParamNameOfDatabaseKey(k: string)
    requires IsDatabaseKey(k)
    ensures ParamName(k) == Lower(k[|Prefix|..])
  {
  }

  lemma ParamNameOfSettingKey(p: string)
    requires NoUpper(p)
    ensures IsDatabaseKey(SettingKey(p)) && ParamName(SettingKey(p)) == p
  {
    var k := SettingKey(p);
    assert k[..|Prefix|] == Prefix && k[|Prefix|..] == Upper(p);
    LowerOfUpper(p);
  }

  lemma SettingKeyOfParamName(k: string)
    requires IsConventionalKey(k)
    ensures SettingKey(ParamName(k)) == k
  {
    UpperOfLower(k[|Prefix|..]);
  }

  /** `from_settings` depends on the `DATABASE_` entries only: every other key is ignored. */
  lemma {:induction false} FromSettingsIgnoresOtherKeys(s: map<string, Value>, t: map<string, Value>)
    requires Unambiguous(s)
    requires forall k :: IsDatabaseKey(k) ==> (k in s <==> k in t)
    requires forall k :: IsDatabaseKey(k) && k in s ==> s[k] == t[k]
    ensures Unambiguous(t) && FromSettings(t) == FromSettings(s)
  {
    var a, b := FromSettings(s), FromSettings(t);
    forall p | p in a ensures p in b && b[p] == a[p] {
      var k :| k in s && IsDatabaseKey(k) && ParamName(k) == p;
    }
    forall p | p in b ensures p in a {
      var k :| k in t && IsDatabaseKey(k) && ParamName(k) == p;
    }
  }

  /** Adding a key without the `DATABASE_` prefix does not change the translation. */
  lemma FromSettingsIgnoresKey(s: map<string, Value>, k: string, v: Value)
    requires Unambiguous(s) && !IsDatabaseKey(k)
    ensures Unambiguous(s[k := v]) && FromSettings(s[k := v]) == FromSettings(s)
  {
    FromSettingsIgnoresOtherKeys(s, s[k := v]);
  }

  lemma SettingKeyExamples()
    ensures SettingKey("a") == "DATABASE_A" && SettingKey("b") == "DATABASE_B"
  {
    assert Upper("a") == "A";
    assert Upper("b") == "B";
  }

  lemma ToSettingsExampleKeys(d: map<string, Value>, j: string)
    requires d == map["a" := Int(1), "b" := Int(2)]
    requires UpperUnambiguous(d) && j in ToSettings(d)
    ensures j == SettingKey("a") || j == SettingKey("b")
  {
  }

  lemma ToSettingsExampleEntries(d: map<string, Value>)
    requires d == map["a" := Int(1), "b" := Int(2)]
    requires UpperUnambiguous(d)
    ensures "DATABASE_A" in ToSettings(d) && ToSettings(d)["DATABASE_A"] == Int(1)
    ensures "DATABASE_B" in ToSettings(d) && ToSettings(d)["DATABASE_B"] == Int(2)
  {
    assert "a" in d && "b" in d;
    assert SettingKey("a") in ToSettings(d) && SettingKey("b") in ToSettings(d);
    SettingKeyExamples();
  }

  lemma ToSettingsExampleOnly(d: map<string, Value>)
    requires d == map["a" := Int(1), "b" := Int(2)]
    requires UpperUnambiguous(d)
    ensures forall j :: j in ToSettings(d) ==> j == "DATABASE_A" || j == "DATABASE_B"
  {
    forall j | j in ToSettings(d) ensures j == "DATABASE_A" || j == "DATABASE_B" {
      ToSettingsExampleKeys(d, j);
      SettingKeyExamples();
    }
  }

  /** `to_settings({'a': 1, 'b': 2}) == {'DATABASE_A': 1, 'DATABASE_B': 2}` */
  lemma ToSettingsExample(d: map<string, Value>)
    requires d == map["a" := Int(1), "b" := Int(2)]
    ensures UpperUnambiguous(d)
    ensures ToSettings(d) == map["DATABASE_A" := Int(1), "DATABASE_B" := Int(2)]
  {
    ToSettingsUnambiguous(d);
    ToSettingsExampleEntries(d);
    ToSettingsExampleOnly(d);
  }

  lemma FromSettingsOfTranslation(d: map<string, Value>, t: map<string, Value>)
    requires forall k :: k in d ==> NoUpper(k)
    requires UpperUnambiguous(d) && t == ToSettings(d)
    ensures Unambiguous(t) && FromSettings(t) == d
  {
    FromToRoundTrip(d);
  }

  /** `from_settings({'DATABASE_A': 1, 'DATABASE_B': 2}) == {'a': 1, 'b': 2}` */
  lemma FromSettingsExample(t: map<string, Value>)
    requires t == map["DATABASE_A" := Int(1), "DATABASE_B" := Int(2)]
    ensures Unambiguous(t) && FromSettings(t) == map["a" := Int(1), "b" := Int(2)]
  {
    var d := map["a" := Int(1), "b" := Int(2)];
    ToSettingsExample(d);
    assert NoUpper("a") && NoUpper("b");
    FromSettingsOfTranslation(d, t);
  }

  /** `from_settings({'DATABASE_A': 1, 'DATABASE_B': 2, 'OTHER': 3}) == {'a': 1, 'b': 2}` */
  lemma FromSettingsExampleWithOther(s: map<string, Value>)
    requires s == map["DATABASE_A" := Int(1), "DATABASE_B" := Int(2), "OTHER" := Int(3)]
    ensures Unambiguous(s) && FromSettings(s) == map["a" := Int(1), "b" := Int(2)]
  {
    var t := map["DATABASE_A" := Int(1), "DATABASE_B" := Int(2)];
    FromSettingsExample(t);
    assert s == t["OTHER" := Int(3)];
    FromSettingsIgnoresKey(t, "OTHER", Int(3));
  }

  lemma LowerNestedKey()
    ensures Lower(NestedKey) == "database"
  {
  }

  /** `DATABASE_DATABASE` names the parameter `database`: only the leading prefix is stripped. */
  lemma StripsOnlyLeadingPrefix()
    ensures ParamName("DATABASE_DATABASE") == "database"
  {
    var k := Prefix + NestedKey;
    assert k[|Prefix|..] == NestedKey;
    ParamNameOfDatabaseKey(k);
    LowerNestedKey();
    assert k == "DATABASE_DATABASE";
  }

  lemma SettingKeyInjective(k1: string, k2: string)
    requires NoUpper(k1) && NoUpper(k2) && SettingKey(k1) == SettingKey(k2)
    ensures k1 == k2
  {
    ParamNameOfSettingKey(k1);
    ParamNameOfSettingKey(k2);
  }

  lemma ToSettingsUnambiguous(d: map<string, Value>)
    requires forall k :: k in d ==> NoUpper(k)
    ensures UpperUnambiguous(d)
  {
    forall k1, k2 | k1 in d && k2 in d && SettingKey(k1) == SettingKey(k2) ensures k1 == k2 {
      SettingKeyInjective(k1, k2);
    }
  }

  lemma ToSettingsTranslatable(d: map<string, Value>)
    requires forall k :: k in d ==> NoUpper(k)
    requires UpperUnambiguous(d)
    ensures Unambiguous(ToSettings(d))
  {
    var s := ToSettings(d);
    forall j1, j2 | j1 in s && j2 in s && ParamName(j1) == ParamName(j2) ensures j1 == j2 {
      var k1 :| k1 in d && SettingKey(k1) == j1;
      var k2 :| k2 in d && SettingKey(k2) == j2;
      ParamNameOfSettingKey(k1);
      ParamNameOfSettingKey(k2);
    }
  }

  /** Every entry of `d` survives `from_settings(to_settings(d))` with its value. */
  lemma FromToKeeps(d: map<string, Value>)
    requires forall k :: k in d ==> NoUpper(k)
    requires UpperUnambiguous(d) && Unambiguous(ToSettings(d))
    ensures forall k {:trigger k in FromSettings(ToSettings(d))} :: k in d ==> k in FromSettings(ToSettings(d)) && FromSettings(ToSettings(d))[k] == d[k]
  {
    forall k | k in d ensures k in FromSettings(ToSettings(d)) && FromSettings(ToSettings(d))[k] == d[k] {
      ParamNameOfSettingKey(k);
      assert SettingKey(k) in ToSettings(d);
    }
  }

  /** `from_settings(to_settings(d))` holds no name that `d` lacks. */
  lemma FromToAddsNothing(d: map<string, Value>)
    requires forall k :: k in d ==> NoUpper(k)
    requires UpperUnambiguous(d) && Unambiguous(ToSettings(d))
    ensures forall p :: p in FromSettings(ToSettings(d)) ==> p in d
  {
    var s := ToSettings(d);
    forall p | p in FromSettings(s) ensures p in d {
      var j :| j in s && IsDatabaseKey(j) && ParamName(j) == p;
      var k :| k in d && SettingKey(k) == j;
      ParamNameOfSettingKey(k);
    }
  }

  /** With both directions unambiguous, `from_settings(to_settings(d))` has the keys and values of `d`. */
  lemma FromToSame(d: map<string, Value>)
    requires forall k :: k in d ==> NoUpper(k)
    requires UpperUnambiguous(d) && Unambiguous(ToSettings(d))
    ensures FromSettings(ToSettings(d)) == d
  {
    FromToKeeps(d);
    FromToAddsNothing(d);
  }

  /** Round trip from connection parameters: `from_settings(to_settings(d)) == d` for names without upper case. */
  lemma FromToRoundTrip(d: map<string, Value>)
    requires forall k :: k in d ==> NoUpper(k)
    ensures UpperUnambiguous(d)
    ensures Unambiguous(ToSettings(d))
    ensures FromSettings(ToSettings(d)) == d
  {
    ToSettingsUnambiguous(d);
    ToSettingsTranslatable(d);
    FromToSame(d);
  }

  lemma FromSettingsUnambiguous(s: map<string, Value>)
    requires forall k :: k in s ==> IsConventionalKey(k)
    ensures Unambiguous(s)
  {
    forall k1, k2 | k1 in s && k2 in s && ParamName(k1) == ParamName(k2) ensures k1 == k2 {
      SettingKeyOfParamName(k1);
      SettingKeyOfParamName(k2);
    }
  }

  lemma FromSettingsInvertible(s: map<string, Value>)
    requires forall k :: k in s ==> IsConventionalKey(k)
    requires Unambiguous(s)
    ensures UpperUnambiguous(FromSettings(s))
  {
    var d := FromSettings(s);
    forall p1, p2 | p1 in d && p2 in d && SettingKey(p1) == SettingKey(p2) ensures p1 == p2 {
      var k1 :| k1 in s && IsDatabaseKey(k1) && ParamName(k1) == p1;
      var k2 :| k2 in s && IsDatabaseKey(k2) && ParamName(k2) == p2;
      SettingKeyOfParamName(k1);
      SettingKeyOfParamName(k2);
    }
  }

  /** Every entry of `s` survives `to_settings(from_settings(s))` with its value. */
  lemma ToFromKeeps(s: map<string, Value>)
    requires forall k :: k in s ==> IsConventionalKey(k)
    requires Unambiguous(s) && UpperUnambiguous(FromSettings(s))
    ensures forall k {:trigger k in ToSettings(FromSettings(s))} :: k in s ==> k in ToSettings(FromSettings(s)) && ToSettings(FromSettings(s))[k] == s[k]
  {
    forall k | k in s ensures k in ToSettings(FromSettings(s)) && ToSettings(FromSettings(s))[k] == s[k] {
      SettingKeyOfParamName(k);
      assert ParamName(k) in FromSettings(s);
    }
  }

  /** `to_settings(from_settings(s))` holds no key that `s` lacks. */
  lemma ToFromAddsNothing(s: map<string, Value>)
    requires forall k :: k in s ==> IsConventionalKey(k)
    requires Unambiguous(s) && UpperUnambiguous(FromSettings(s))
    ensures forall j :: j in ToSettings(FromSettings(s)) ==> j in s
  {
    var d := FromSettings(s);
    forall j | j in ToSettings(d) ensures j in s {
      var p :| p in d && SettingKey(p) == j;
      var k :| k in s && IsDatabaseKey(k) && ParamName(k) == p;
      SettingKeyOfParamName(k);
    }
  }

  /** With both directions unambiguous, `to_settings(from_settings(s))` has the keys and values of `s`. */
  lemma ToFromSame(s: map<string, Value>)
    requires forall k :: k in s ==> IsConventionalKey(k)
    requires Unambiguous(s) && UpperUnambiguous(FromSettings(s))
    ensures ToSettings(FromSettings(s)) == s
  {
    ToFromKeeps(s);
    ToFromAddsNothing(s);
  }

  /** Round trip from settings: `to_settings(from_settings(s)) == s` when every key is conventional. */
  lemma ToFromRoundTrip(s: map<string, Value>)
    requires forall k :: k in s ==> IsConventionalKey(k)
    ensures Unambiguous(s)
    ensures UpperUnambiguous(FromSettings(s))
    ensures ToSettings(FromSettings(s)) == s
  {
    FromSettingsUnambiguous(s);
    FromSettingsInvertible(s);
    ToFromSame(s);
  }
}
