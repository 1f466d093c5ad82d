/**
 * The definition the interface processor generates from
 * (interfaceprocessor/impl/DefaultInterfaceDefinition.java): package and
 * interface name, and list-backed properties, plain methods and type parameters.
 * Unlike the class processor's table it keeps no fields and pairs nothing.
 */
module InterfaceDefinitions {
  import opened Wrappers
  import opened LangModel
  import opened Lookup
  import opened InterfaceProperties

  function PropertyKeys(ps: seq<Property>): seq<Key>
  {
    seq(|ps|, i requires 0 <= i < |ps| => Key(ps[i].name, ps[i].typ))
  }

  function PropertyViews(ps: seq<Property>): (vs: seq<PropertyView>)
    reads ps
    ensures |vs| == |ps|
  {
    seq(|ps|, i requires 0 <= i < |ps| reads ps => ps[i].View())
  }

  predicate HasIgnored(ps: seq<PropertyView>)
  {
    exists i | 0 <= i < |ps| :: ps[i].ignore
  }

  /** A snapshot of a definition, as the generator reads it through the getters. */
  datatype DefinitionView = DefinitionView(
    pkg: Option<string>,
    interfaceName: Option<string>,
    properties: seq<PropertyView>,
    methods: seq<ExecutableElement>,
    typeParameters: seq<string>)

  class InterfaceDefinition {
    var pkg: Option<string>
    var interfaceName: Option<string>
    var properties: seq<Property>
    var methods: seq<ExecutableElement>
    var typeParameters: seq<string>

    function View(): DefinitionView
      reads this, properties
    {
      DefinitionView(pkg, interfaceName, PropertyViews(properties), methods, typeParameters)
    }

    constructor ()
      ensures pkg.None? && interfaceName.None?
      ensures properties == [] && methods == [] && typeParameters == []
    {
      pkg := None;
      interfaceName := None;
      properties := [];
      methods := [];
      typeParameters := [];
    }

    /** The package and interface name are stored and returned as given. */
    method SetPackage(p: Option<string>)
      modifies this`pkg
      ensures pkg == p
    {
      pkg := p;
    }

    method SetInterfaceName(n: Option<string>)
      modifies this`interfaceName
      ensures interfaceName == n
    {
      interfaceName := n;
    }

    /** getProperties: a new list holding the same property objects. */
    method GetProperties() returns (r: array<Property>)
      ensures fresh(r) && r[..] == properties
    {
      r := new Property[|properties|](i requires 0 <= i < |properties| reads this => properties[i]);
    }

    /** addProperties: a null argument changes nothing; otherwise the properties are appended as given. */
    method AddProperties(ps: Option<seq<Property>>)
      modifies this`properties
      ensures properties == old(properties) + ElementsOf(ps)
    {
      if ps.None? {
        return;
      }
      properties := properties + ps.value;
    }

    /** findProperty: the first property with this name and type, or null. */
    method FindProperty(name: string, typ: JType) returns (r: Property?)
      ensures var k := FirstMatch(PropertyKeys(properties), Key(name, typ));
              r == if k < 0 then null else properties[k]
    {
      var i := 0;
      while i < |properties|
        invariant 0 <= i <= |properties|
        invariant forall j | 0 <= j < i :: Key(properties[j].name, properties[j].typ) != Key(name, typ)
      {
        if properties[i].name == name && properties[i].typ == typ {
          FirstMatchAt(PropertyKeys(properties), Key(name, typ), i);
          return properties[i];
        }
        i := i + 1;
      }
      return null;
    }

    method GetMethods() returns (r: array<ExecutableElement>)
      ensures fresh(r) && r[..] == methods
    {
      r := new ExecutableElement[|methods|](i requires 0 <= i < |methods| reads this => methods[i]);
    }

    method AddMethods(ms: Option<seq<ExecutableElement>>)
      modifies this`methods
      ensures methods == old(methods) + ElementsOf(ms)
    {
      if ms.None? {
        return;
      }
      methods := methods + ms.value;
    }

    method GetTypeParameterElements() returns (r: array<string>)
      ensures fresh(r) && r[..] == typeParameters
    {
      r := new string[|typeParameters|](i requires 0 <= i < |typeParameters| reads this => typeParameters[i]);
    }

    method AddTypeParameters(ps: Option<seq<string>>)
      modifies this`typeParameters
      ensures typeParameters == old(typeParameters) + ElementsOf(ps)
    {
      if ps.None? {
        return;
      }
      typeParameters := typeParameters + ps.value;
    }

    /** isHavingIgnoredProperty: some property, read from a copy of the list, is ignored. */
    method IsHavingIgnoredProperty() returns (b: bool)
      ensures b <==> HasIgnored(PropertyViews(properties))
    {
      var copy := GetProperties();
      var i := 0;
      while i < copy.Length
        invariant 0 <= i <= copy.Length
        invariant forall j | 0 <= j < i :: !properties[j].ignore
      {
        if copy[i].ignore {
          assert PropertyViews(properties)[i].ignore;
          return true;
        }
        i := i + 1;
      }
      return false;
    }
  }
}
