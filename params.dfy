/**
 * findParams (webgl-toolkit.mjs and tools.mjs): the name-keyed tables of a
 * linked program's active attributes and uniforms.
 *
 * The GL introspection calls are inputs: for each active index, what
 * getActiveAttrib / getActiveUniform returned (`details`, absent for null)
 * and what getAttribLocation / getUniformLocation returned for that name
 * (`location`, absent for null).
 */
module Params {
  import opened Wrappers
  import opened Errors
  import opened Gl

  /** The `name` and `type` of a WebGLActiveInfo. */
  datatype ActiveInfo = ActiveInfo(name: string, glType: nat)

  /**
   * What introspection yields for one active index.  getAttribLocation
   * answers -1 rather than null for an unknown name, so an absent `location`
   * arises in practice only from getUniformLocation; both passes keep the
   * null check all the same.
   */
  datatype Probe = Probe(details: Option<ActiveInfo>, location: Option<Location>)

  /**
   * A table entry.  tools.mjs also stores the stripped name (`name` is
   * present); webgl-toolkit.mjs stores only location and type.
   */
  datatype Binding = Binding(location: Location, glType: nat, name: Option<string>)

  datatype ParamTables = ParamTables(attributes: map<string, Binding>, uniforms: map<string, Binding>)

  // ---------------------------------------------------------------------------
  // Prefix stripping: `name.replace(/^\w_/, '')`
  // ---------------------------------------------------------------------------

  /** The regular-expression class \w: ASCII letters, digits and underscore. */
  predicate IsWordChar(c: char) {
    'a' <= c <= 'z' || 'A' <= c <= 'Z' || '0' <= c <= '9' || c == '_'
  }

  /** The name starts with one word character followed by an underscore. */
  predicate HasPrefix(name: string) {
    |name| >= 2 && IsWordChar(name[0]) && name[1] == '_'
  }

  /** The lookup key of a shader name: at most one leading `\w_` removed. */
  function StripPrefix(name: string): (key: string)
    ensures key != name <==> HasPrefix(name)
    ensures HasPrefix(name) ==> name == name[..2] + key
    ensures |key| <= |name|
  {
    if HasPrefix(name) then name[2..] else name
  }

  /** Only one prefix is removed, whatever the rest of the name looks like. */
  lemma StripPrefixOnce(c: char, key: string)
    requires IsWordChar(c)
    ensures StripPrefix([c, '_'] + key) == key
  {
    assert ([c, '_'] + key)[2..] == key;
  }

  lemma StripPrefixExamples()
    ensures StripPrefix("a_position") == "position"
    ensures StripPrefix("u_resolution") == "resolution"
    ensures StripPrefix("a_u_x") == "u_x"
    ensures StripPrefix("gl_X") == "gl_X"
    ensures StripPrefix("position") == "position"
    ensures StripPrefix("__x") == "x"
  {
    StripPrefixOnce('a', "position");
    StripPrefixOnce('u', "resolution");
    StripPrefixOnce('a', "u_x");
    StripPrefixOnce('_', "x");
  }

  // ---------------------------------------------------------------------------
  // The tables, as functions
  // ---------------------------------------------------------------------------

  /** One entry: the null checks in source order, then the stripped key and its binding. */
  function Resolve(probe: Probe, withName: bool): (r: Result<(string, Binding), SetupError>)
    ensures r.Success? <==> probe.details.Some? && probe.location.Some?
    ensures probe.details.None? ==> r == Failure(DetailsUnavailable)
    ensures probe.details.Some? && probe.location.None? ==> r == Failure(LocationUnavailable)
    ensures r.Success? ==> r.value.0 == StripPrefix(probe.details.value.name) &&
                           r.value.1.location == probe.location.value &&
                           r.value.1.glType == probe.details.value.glType &&
                           (r.value.1.name.Some? <==> withName) &&
                           (withName ==> r.value.1.name.value == r.value.0)
  {
    match probe.details
    case None => Failure(DetailsUnavailable)
    case Some(info) =>
      match probe.location
      case None => Failure(LocationUnavailable)
      case Some(loc) =>
        var key := StripPrefix(info.name);
        Success((key, Binding(loc, info.glType, if withName then Some(key) else None)))
  }

  /** The key an entry is filed under. */
  function KeyOf(probe: Probe): string
    requires probe.details.Some?
  {
    StripPrefix(probe.details.value.name)
  }

  /** The table built from the probes in index order, or the first error. */
  function BuildTable(probes: seq<Probe>, withName: bool): Result<map<string, Binding>, SetupError> {
    if probes == [] then Success(map[])
    else
      match BuildTable(probes[..|probes| - 1], withName)
      case Failure(e) => Failure(e)
      case Success(table) =>
        match Resolve(probes[|probes| - 1], withName)
        case Failure(e) => Failure(e)
        case Success(entry) => Success(table[entry.0 := entry.1])
  }

  /** Both tables: attributes first; uniforms are examined only when every attribute resolved. */
  function ParamTablesOf(attributes: seq<Probe>, uniforms: seq<Probe>, withName: bool): Result<ParamTables, SetupError> {
    match BuildTable(attributes, withName)
    case Failure(e) => Failure(e)
    case Success(a) =>
      match BuildTable(uniforms, withName)
      case Failure(e) => Failure(e)
      case Success(u) => Success(ParamTables(a, u))
  }

  // ---------------------------------------------------------------------------
  // What the tables are
  // ---------------------------------------------------------------------------

  /** A table is built exactly when every entry resolves. */
  lemma {:induction false} BuildTableSucceeds(probes: seq<Probe>, withName: bool)
    ensures BuildTable(probes, withName).Success? <==>
            forall i :: 0 <= i < |probes| ==> Resolve(probes[i], withName).Success?
  {
    if probes != [] {
      var init := probes[..|probes| - 1];
      BuildTableSucceeds(init, withName);
      assert forall i :: 0 <= i < |init| ==> init[i] == probes[i];
    }
  }

  /** The error raised is that of the first entry that does not resolve. */
  lemma {:induction false} BuildTableFirstError(probes: seq<Probe>, withName: bool, i: nat)
    requires i < |probes| && Resolve(probes[i], withName).Failure?
    requires forall j :: 0 <= j < i ==> Resolve(probes[j], withName).Success?
    ensures BuildTable(probes, withName) == Failure(Resolve(probes[i], withName).error)
  {
    var init := probes[..|probes| - 1];
    if i == |probes| - 1 {
      BuildTableSucceeds(init, withName);
      assert forall j :: 0 <= j < |init| ==> init[j] == probes[j];
    } else {
      BuildTableFirstError(init, withName, i);
    }
  }

  /** On success, the keys are exactly the stripped names of the entries. */
  lemma {:induction false} BuildTableKeys(probes: seq<Probe>, withName: bool)
    requires BuildTable(probes, withName).Success?
    ensures forall i :: 0 <= i < |probes| ==> probes[i].details.Some?
    ensures forall k :: k in BuildTable(probes, withName).value <==>
                        exists i :: 0 <= i < |probes| && KeyOf(probes[i]) == k
  {
    BuildTableSucceeds(probes, withName);
    if probes != [] {
      var init := probes[..|probes| - 1];
      BuildTableKeys(init, withName);
      assert forall j :: 0 <= j < |init| ==> init[j] == probes[j];
      var last := probes[|probes| - 1];
      forall k | k in BuildTable(probes, withName).value
        ensures exists i :: 0 <= i < |probes| && KeyOf(probes[i]) == k
      {
        if k != KeyOf(last) {
          var i :| 0 <= i < |init| && KeyOf(init[i]) == k;
          assert KeyOf(probes[i]) == k;
        } else {
          assert KeyOf(probes[|probes| - 1]) == k;
        }
      }
    }
  }

  /**
   * Later entries overwrite earlier ones: the binding under a key is that of
   * the last entry filed under it.
   */
  lemma {:induction false} BuildTableLastWins(probes: seq<Probe>, withName: bool, i: nat)
    requires BuildTable(probes, withName).Success?
    requires i < |probes|
    requires probes[i].details.Some?
    requires forall j :: i < j < |probes| && probes[j].details.Some? ==> KeyOf(probes[j]) != KeyOf(probes[i])
    ensures Resolve(probes[i], withName).Success?
    ensures KeyOf(probes[i]) in BuildTable(probes, withName).value
    ensures BuildTable(probes, withName).value[KeyOf(probes[i])] == Resolve(probes[i], withName).value.1
  {
    BuildTableSucceeds(probes, withName);
    var init := probes[..|probes| - 1];
    if i < |probes| - 1 {
      assert forall j :: 0 <= j < |init| ==> init[j] == probes[j];
      BuildTableLastWins(init, withName, i);
    }
  }

  /**
   * The result of findParams: both tables, or the first error, attributes
   * being examined before uniforms.
   */
  lemma ParamTablesOutcome(attributes: seq<Probe>, uniforms: seq<Probe>, withName: bool)
    ensures var r := ParamTablesOf(attributes, uniforms, withName);
      (r.Success? <==> (forall i :: 0 <= i < |attributes| ==> Resolve(attributes[i], withName).Success?) &&
                       (forall i :: 0 <= i < |uniforms| ==> Resolve(uniforms[i], withName).Success?)) &&
      (BuildTable(attributes, withName).Failure? ==> r == Failure(BuildTable(attributes, withName).error))
  {
    BuildTableSucceeds(attributes, withName);
    BuildTableSucceeds(uniforms, withName);
  }

  /** A program with attributes a_position, a_uv and uniform u_resolution. */
  lemma TexturedProgramTables()
    ensures var attributes := [Probe(Some(ActiveInfo("a_position", 0x8B50)), Some(0)),
                               Probe(Some(ActiveInfo("a_uv", 0x8B50)), Some(1))];
            var uniforms := [Probe(Some(ActiveInfo("u_resolution", 0x8B50)), Some(7))];
            var r := ParamTablesOf(attributes, uniforms, true);
            r.Success? &&
            r.value.attributes.Keys == {"position", "uv"} &&
            r.value.uniforms.Keys == {"resolution"} &&
            r.value.attributes["uv"] == Binding(1, 0x8B50, Some("uv"))
  {
    StripPrefixExamples();
    StripPrefixOnce('a', "uv");
    var position := Probe(Some(ActiveInfo("a_position", 0x8B50)), Some(0));
    var uv := Probe(Some(ActiveInfo("a_uv", 0x8B50)), Some(1));
    var resolution := Probe(Some(ActiveInfo("u_resolution", 0x8B50)), Some(7));
    assert [position, uv][..1] == [position];
    assert [position][..0] == [];
    assert [resolution][..0] == [];
    assert BuildTable([position], true) == Success(map["position" := Binding(0, 0x8B50, Some("position"))]);
    assert BuildTable([position, uv], true) == Success(map["position" := Binding(0, 0x8B50, Some("position")),
                                                           "uv" := Binding(1, 0x8B50, Some("uv"))]);
    assert BuildTable([resolution], true) == Success(map["resolution" := Binding(7, 0x8B50, Some("resolution"))]);
  }

  // ---------------------------------------------------------------------------
  // The loop
  // ---------------------------------------------------------------------------

  lemma BuildTablePrefixFails(probes: seq<Probe>, withName: bool, i: nat)
    requires i < |probes|
    requires BuildTable(probes[..i], withName).Success?
    requires Resolve(probes[i], withName).Failure?
    ensures BuildTable(probes, withName) == Failure(Resolve(probes[i], withName).error)
  {
    BuildTableSucceeds(probes[..i], withName);
    assert forall j :: 0 <= j < i ==> probes[..i][j] == probes[j];
    BuildTableFirstError(probes, withName, i);
  }

  /**
   * findParams: pass 0 enumerates the active attributes, pass 1 the active
   * uniforms; each entry is null-checked and filed under its stripped name.
   */
  method FindParams(activeAttributes: seq<Probe>, activeUniforms: seq<Probe>, withName: bool)
    returns (r: Result<ParamTables, SetupError>)
    ensures r == ParamTablesOf(activeAttributes, activeUniforms, withName)
  {
    var attributes: map<string, Binding> := map[];
    var uniforms: map<string, Binding> := map[];
    var isUniform := 0;
    while isUniform < 2
      invariant 0 <= isUniform <= 2
      invariant isUniform == 0 ==> attributes == map[]
      invariant isUniform >= 1 ==> BuildTable(activeAttributes, withName) == Success(attributes)
      invariant isUniform < 2 ==> uniforms == map[]
      invariant isUniform == 2 ==> BuildTable(activeUniforms, withName) == Success(uniforms)
    {
      var probes := if isUniform == 1 then activeUniforms else activeAttributes;
      var i := 0;
      while i < |probes|
        invariant 0 <= i <= |probes|
        invariant BuildTable(probes[..i], withName) == Success(if isUniform == 1 then uniforms else attributes)
        invariant isUniform == 1 ==> BuildTable(activeAttributes, withName) == Success(attributes)
        invariant isUniform == 0 ==> uniforms == map[]
      {
        assert probes[..i + 1][..i] == probes[..i];
        var details := probes[i].details;
        if details.None? {
          BuildTablePrefixFails(probes, withName, i);
          return Failure(DetailsUnavailable);
        }
        var location := probes[i].location;
        if location.None? {
          BuildTablePrefixFails(probes, withName, i);
          return Failure(LocationUnavailable);
        }
        var name := StripPrefix(details.value.name);
        var binding := Binding(location.value, details.value.glType, if withName then Some(name) else None);
        if isUniform == 1 {
          uniforms := uniforms[name := binding];
        } else {
          attributes := attributes[name := binding];
        }
        i := i + 1;
      }
      assert probes[..i] == probes;
      isUniform := isUniform + 1;
    }
    r := Success(ParamTables(attributes, uniforms));
  }
}
