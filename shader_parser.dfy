/**
 * The inline part of the shader parser header: the declaration records a
 * parse produces, their init routines, and the first-match lookups of the
 * parser state.
 */
module ShaderParser {
  import opened Wrappers

  /** The storage class of a shader variable. */
  datatype ShaderVarType = VarNone | VarUniform | VarConst

  /** A byte of a variable's default value. */
  newtype byte = x: int | 0 <= x < 256

  /** The role shader_var_init_param gives a variable: `uniform` wins over
      `const`, and a variable with neither qualifier has no role. */
  function VarRole(isUniform: bool, isConst: bool): (r: ShaderVarType)
    ensures r == VarUniform <==> isUniform
    ensures r == VarConst <==> isConst && !isUniform
    ensures r == VarNone <==> !isUniform && !isConst
  {
    if isUniform then VarUniform
    else if isConst then VarConst
    else VarNone
  }

  /** shader_var: a global parameter, an aggregate member or a function
      parameter. String fields are `None` where the C pointer is NULL. */
  class ShaderVar {
    var typeName: Option<string>
    var name: Option<string>
    var mapping: Option<string>
    var varType: ShaderVarType
    var arrayCount: int
    var defaultVal: seq<byte>

    /** shader_var_init: every field zeroed — NULL strings, no role, not
        an array, no default value. */
    method Init()
      modifies this
      ensures typeName == None && name == None && mapping == None
      ensures varType == VarNone && arrayCount == 0 && defaultVal == []
    {
      typeName, name, mapping := None, None, None;
      varType := VarNone;
      arrayCount := 0;
      defaultVal := [];
    }

    /** shader_var_init_param: a declared variable with the given type and
        name, the role chosen by VarRole, no mapping, not an array and no
        default value. */
    method InitParam(typ: Option<string>, nm: Option<string>, isUniform: bool, isConst: bool)
      modifies this
      ensures varType == VarRole(isUniform, isConst)
      ensures typeName == typ && name == nm && mapping == None
      ensures arrayCount == 0 && defaultVal == []
    {
      if isUniform {
        varType := VarUniform;
      } else if isConst {
        varType := VarConst;
      } else {
        varType := VarNone;
      }
      typeName := typ;
      name := nm;
      mapping := None;
      arrayCount := 0;
      defaultVal := [];
    }
  }

  /** shader_sampler: a sampler-state block; `states[i]` is set to
      `values[i]`. */
  class ShaderSampler {
    var name: Option<string>
    var states: seq<string>
    var values: seq<string>

    /** shader_sampler_init: no name and no state assignments. */
    method Init()
      modifies this
      ensures name == None && states == [] && values == []
    {
      name := None;
      states, values := [], [];
    }
  }

  /** shader_struct: a named aggregate of member variables. */
  class ShaderStruct {
    var name: Option<string>
    var vars: seq<ShaderVar>

    /** shader_struct_init: no name and no members. */
    method Init()
      modifies this
      ensures name == None && vars == []
    {
      name := None;
      vars := [];
    }
  }

  /** shader_func: a function signature and the token range of its body.
      `start` and `end` are indices into the token stream of the external
      parser, `None` where the C pointer is NULL. */
  class ShaderFunc {
    var name: Option<string>
    var returnType: Option<string>
    var params: seq<ShaderVar>
    var start: Option<nat>
    var end: Option<nat>

    /** shader_func_init: the given return type and name, no parameters
        and no body range yet. */
    method Init(retType: Option<string>, nm: Option<string>)
      modifies this
      ensures returnType == retType && name == nm
      ensures params == [] && start == None && end == None
    {
      params := [];
      returnType := retType;
      name := nm;
      start := None;
      end := None;
    }
  }

  /** shader_parser: the four lists of declarations a parse collects. The
      embedded token parser is not part of this model. */
  class ShaderParser {
    var params: seq<ShaderVar>
    var structs: seq<ShaderStruct>
    var samplers: seq<ShaderSampler>
    var funcs: seq<ShaderFunc>

    /** shader_parser_init: all four lists empty. */
    method Init()
      modifies this
      ensures params == [] && structs == [] && samplers == [] && funcs == []
    {
      params, structs := [], [];
      samplers, funcs := [], [];
    }

    /** shader_parser_getfunc: the first function named `funcName`, or
        NULL when no function has that name. The names are compared with
        strcmp up to the first match, so those must be set. */
    method GetFunc(funcName: string) returns (f: ShaderFunc?)
      requires forall i :: 0 <= i < |funcs| && (forall j :: 0 <= j < i ==> funcs[j].name != Some(funcName)) ==>
                 funcs[i].name.Some?
      ensures f == null <==> forall i :: 0 <= i < |funcs| ==> funcs[i].name != Some(funcName)
      ensures f != null ==> exists i :: 0 <= i < |funcs| && funcs[i] == f && f.name == Some(funcName) &&
                                        forall j :: 0 <= j < i ==> funcs[j].name != Some(funcName)
    {
      var i := 0;
      while i < |funcs|
        invariant 0 <= i <= |funcs|
        invariant forall j :: 0 <= j < i ==> funcs[j].name != Some(funcName)
      {
        var func := funcs[i];
        if func.name.value == funcName {
          return func;
        }
        i := i + 1;
      }
      return null;
    }

    /** shader_parser_getstruct: the first aggregate named `structName`,
        or NULL when no aggregate has that name. The names are compared
        with strcmp up to the first match, so those must be set. */
    method GetStruct(structName: string) returns (st: ShaderStruct?)
      requires forall i :: 0 <= i < |structs| && (forall j :: 0 <= j < i ==> structs[j].name != Some(structName)) ==>
                 structs[i].name.Some?
      ensures st == null <==> forall i :: 0 <= i < |structs| ==> structs[i].name != Some(structName)
      ensures st != null ==> exists i :: 0 <= i < |structs| && structs[i] == st && st.name == Some(structName) &&
                                         forall j :: 0 <= j < i ==> structs[j].name != Some(structName)
    {
      var i := 0;
      while i < |structs|
        invariant 0 <= i <= |structs|
        invariant forall j :: 0 <= j < i ==> structs[j].name != Some(structName)
      {
        var s := structs[i];
        if s.name.value == structName {
          return s;
        }
        i := i + 1;
      }
      return null;
    }
  }

  /** Two aggregates with the same name: the lookup yields the one declared
      first, and a name nobody declared yields NULL. An aggregate without a
      name may follow the first match. */
  method DuplicateStructLookup()
  {
    var first := new ShaderStruct;
    first.Init();
    first.name := Some("VertInOut");
    var second := new ShaderStruct;
    second.Init();
    second.name := Some("VertInOut");
    var sp := new ShaderParser;
    sp.Init();
    sp.structs := [first, second];

    var found := sp.GetStruct("VertInOut");
    assert sp.structs[0] == first;
    assert found == first;
    var missing := sp.GetStruct("Other");
    assert missing == null;

    // An unnamed aggregate after the first match is never compared.
    var unnamed := new ShaderStruct;
    unnamed.Init();
    sp.structs := [first, unnamed];
    assert sp.structs[0].name == Some("VertInOut");
    found := sp.GetStruct("VertInOut");
    assert sp.structs[0] == first;
    assert found == first;
  }
}
