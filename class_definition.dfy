/**
 * The definition table the class processor fills while it walks an interface
 * (classprocessor/impl/DefautClassDefinition.java): list-backed fields,
 * properties, plain methods and type parameters, first-match lookup by name and
 * type, and the pairing flags set when a field and a property share a key.
 */
module ClassDefinitions {
  import opened Wrappers
  import opened LangModel
  import opened Lookup
  import opened ClassFields
  import opened ClassProperties

  datatype ElementType = Interface | Class

  ghost predicate Distinct<T>(s: seq<T>)
  {
    forall i, j | 0 <= i < j < |s| :: s[i] != s[j]
  }

  function FieldKey(f: Field): Key { Key(f.name, f.typ) }
  function PropertyKey(p: Property): Key { Key(p.name, p.typ) }

  function FieldKeys(fs: seq<Field>): seq<Key>
  {
    seq(|fs|, i requires 0 <= i < |fs| => FieldKey(fs[i]))
  }

  function PropertyKeys(ps: seq<Property>): seq<Key>
  {
    seq(|ps|, i requires 0 <= i < |ps| => PropertyKey(ps[i]))
  }

  function FieldViewKeys(vs: seq<FieldView>): seq<Key>
  {
    seq(|vs|, i requires 0 <= i < |vs| => Key(vs[i].name, vs[i].typ))
  }

  function PropertyViewKeys(vs: seq<PropertyView>): seq<Key>
  {
    seq(|vs|, i requires 0 <= i < |vs| => Key(vs[i].name, vs[i].typ))
  }

  function FieldViews(fs: seq<Field>): (vs: seq<FieldView>)
    reads fs
    ensures |vs| == |fs| && FieldViewKeys(vs) == FieldKeys(fs)
  {
    seq(|fs|, i requires 0 <= i < |fs| reads fs => fs[i].View())
  }

  function PropertyViews(ps: seq<Property>): (vs: seq<PropertyView>)
    reads ps
    ensures |vs| == |ps| && PropertyViewKeys(vs) == PropertyKeys(ps)
  {
    seq(|ps|, i requires 0 <= i < |ps| reads ps => ps[i].View())
  }

  /** A snapshot of a whole definition, the table objects replaced by their own snapshots. */
  datatype DefinitionState = DefinitionState(
    elementType: Option<ElementType>,
    pkg: Option<string>,
    className: Option<string>,
    fields: seq<FieldView>,
    properties: seq<PropertyView>,
    methods: seq<ExecutableElement>,
    typeParameters: seq<string>)

  const EmptyState: DefinitionState := DefinitionState(None, None, None, [], [], [], [])

  /**
   * addFields with one new field, on snapshots: the field is appended, and when a
   * property with its key exists, the field and the first such property are both
   * flagged as paired.
   */
  function AddFieldToState(s: DefinitionState, f: FieldView): (t: DefinitionState)
    ensures |t.fields| == |s.fields| + 1 && t.fields[..|s.fields|] == s.fields
    ensures t.fields[|s.fields|] == f.(propertyDefined := t.fields[|s.fields|].propertyDefined)
    ensures |t.properties| == |s.properties| && PropertyViewKeys(t.properties) == PropertyViewKeys(s.properties)
    ensures Key(f.name, f.typ) in PropertyViewKeys(s.properties) ==>
              t.fields[|s.fields|].propertyDefined &&
              t.properties[FirstMatch(PropertyViewKeys(s.properties), Key(f.name, f.typ))].fieldDefined
    ensures Key(f.name, f.typ) !in PropertyViewKeys(s.properties) ==> t.fields[|s.fields|] == f && t.properties == s.properties
    ensures var k := FirstMatch(PropertyViewKeys(s.properties), Key(f.name, f.typ));
              k >= 0 ==> t.fields[|s.fields|] == f.(propertyDefined := true) &&
                         t.properties == s.properties[k := s.properties[k].(fieldDefined := true)]
    ensures t.(fields := s.fields, properties := s.properties) == s
  {
    var k := FirstMatch(PropertyViewKeys(s.properties), Key(f.name, f.typ));
    if k >= 0 then
      s.(fields := s.fields + [f.(propertyDefined := true)],
         properties := s.properties[k := s.properties[k].(fieldDefined := true)])
    else
      s.(fields := s.fields + [f])
  }

  /** addProperties with one new property, on snapshots; the mirror image of AddFieldToState. */
  function AddPropertyToState(s: DefinitionState, p: PropertyView): (t: DefinitionState)
    ensures |t.properties| == |s.properties| + 1 && t.properties[..|s.properties|] == s.properties
    ensures t.properties[|s.properties|] == p.(fieldDefined := t.properties[|s.properties|].fieldDefined)
    ensures |t.fields| == |s.fields| && FieldViewKeys(t.fields) == FieldViewKeys(s.fields)
    ensures Key(p.name, p.typ) in FieldViewKeys(s.fields) ==>
              t.properties[|s.properties|].fieldDefined &&
              t.fields[FirstMatch(FieldViewKeys(s.fields), Key(p.name, p.typ))].propertyDefined
    ensures Key(p.name, p.typ) !in FieldViewKeys(s.fields) ==> t.properties[|s.properties|] == p && t.fields == s.fields
    ensures var k := FirstMatch(FieldViewKeys(s.fields), Key(p.name, p.typ));
              k >= 0 ==> t.properties[|s.properties|] == p.(fieldDefined := true) &&
                         t.fields == s.fields[k := s.fields[k].(propertyDefined := true)]
    ensures t.(fields := s.fields, properties := s.properties) == s
  {
    var k := FirstMatch(FieldViewKeys(s.fields), Key(p.name, p.typ));
    if k >= 0 then
      s.(properties := s.properties + [p.(fieldDefined := true)],
         fields := s.fields[k := s.fields[k].(propertyDefined := true)])
    else
      s.(properties := s.properties + [p])
  }

  /**
   * A field and a property with the same key, neither of which has a namesake in
   * the table yet, end up both flagged as paired, whichever is added first.
   */
  lemma PairingIsOrderIndependent(s: DefinitionState, f: FieldView, p: PropertyView)
    requires Key(f.name, f.typ) == Key(p.name, p.typ)
    requires Key(f.name, f.typ) !in FieldViewKeys(s.fields)
    requires Key(p.name, p.typ) !in PropertyViewKeys(s.properties)
    ensures var t := AddPropertyToState(AddFieldToState(s, f), p);
              t.fields[|s.fields|].propertyDefined && t.properties[|s.properties|].fieldDefined
    ensures var t := AddFieldToState(AddPropertyToState(s, p), f);
              t.fields[|s.fields|].propertyDefined && t.properties[|s.properties|].fieldDefined
    ensures AddPropertyToState(AddFieldToState(s, f), p) == AddFieldToState(AddPropertyToState(s, p), f)
    ensures AddPropertyToState(AddFieldToState(s, f), p) ==
              s.(fields := s.fields + [f.(propertyDefined := true)], properties := s.properties + [p.(fieldDefined := true)])
  {
    FieldThenProperty(s, f, p);
    PropertyThenField(s, f, p);
  }

  /** Adding the field first, then the property: the property finds the new field. */
  lemma FieldThenProperty(s: DefinitionState, f: FieldView, p: PropertyView)
    requires Key(f.name, f.typ) == Key(p.name, p.typ)
    requires Key(f.name, f.typ) !in FieldViewKeys(s.fields)
    requires Key(p.name, p.typ) !in PropertyViewKeys(s.properties)
    ensures AddPropertyToState(AddFieldToState(s, f), p) ==
              s.(fields := s.fields + [f.(propertyDefined := true)], properties := s.properties + [p.(fieldDefined := true)])
  {
    var key := Key(f.name, f.typ);
    var s1 := AddFieldToState(s, f);
    assert s1 == s.(fields := s.fields + [f]);
    assert FieldViewKeys(s1.fields) == FieldViewKeys(s.fields) + [key];
    FirstMatchWhenOnlyLast(FieldViewKeys(s.fields), key);
    assert s1.fields[|s.fields| := s1.fields[|s.fields|].(propertyDefined := true)] == s.fields + [f.(propertyDefined := true)];
  }

  /** Adding the property first, then the field: the field finds the new property. */
  lemma PropertyThenField(s: DefinitionState, f: FieldView, p: PropertyView)
    requires Key(f.name, f.typ) == Key(p.name, p.typ)
    requires Key(f.name, f.typ) !in FieldViewKeys(s.fields)
    requires Key(p.name, p.typ) !in PropertyViewKeys(s.properties)
    ensures AddFieldToState(AddPropertyToState(s, p), f) ==
              s.(fields := s.fields + [f.(propertyDefined := true)], properties := s.properties + [p.(fieldDefined := true)])
  {
    var key := Key(p.name, p.typ);
    var s1 := AddPropertyToState(s, p);
    assert s1 == s.(properties := s.properties + [p]);
    assert PropertyViewKeys(s1.properties) == PropertyViewKeys(s.properties) + [key];
    FirstMatchWhenOnlyLast(PropertyViewKeys(s.properties), key);
    assert s1.properties[|s.properties| := s1.properties[|s.properties|].(fieldDefined := true)] ==
           s.properties + [p.(fieldDefined := true)];
  }

  lemma FirstMatchWhenOnlyLast(keys: seq<Key>, key: Key)
    requires key !in keys
    ensures FirstMatch(keys + [key], key) == |keys|
  {
    assert (keys + [key])[|keys|] == key;
    assert forall j | 0 <= j < |keys| :: (keys + [key])[j] == keys[j];
  }

  /** The fields, in order, that have no property with the same key. */
  function InnerFields(fs: seq<Field>, propertyKeys: seq<Key>): (r: seq<Field>)
    ensures forall i | 0 <= i < |r| :: r[i] in fs && FieldKey(r[i]) !in propertyKeys
    ensures forall i | 0 <= i < |fs| && FieldKey(fs[i]) !in propertyKeys :: fs[i] in r
    ensures |r| <= |fs|
  {
    if |fs| == 0 then []
    else
      var last := fs[|fs| - 1];
      InnerFields(fs[..|fs| - 1], propertyKeys) + (if FieldKey(last) in propertyKeys then [] else [last])
  }

  /** Some property in the list is marked as ignored. */
  predicate HasIgnored(ps: seq<PropertyView>)
  {
    exists i | 0 <= i < |ps| :: ps[i].ignore
  }

  /** The entry found for a key is this object. */
  predicate IsFirstMatch<T(==)>(keys: seq<Key>, key: Key, entries: seq<T>, e: T)
    requires |keys| == |entries|
  {
    var k := FirstMatch(keys, key);
    k >= 0 && entries[k] == e
  }

  /** The property objects a batch of added fields pairs with: for each field, the first property with its key. */
  predicate PairedByFields(ps: seq<Property>, added: seq<Field>, p: Property)
  {
    exists j | 0 <= j < |added| ::
      IsFirstMatch(PropertyKeys(ps), FieldKey(added[j]), ps, p)
  }

  /** The field objects a batch of added properties pairs with: for each property, the first field with its key. */
  predicate PairedByProperties(fs: seq<Field>, added: seq<Property>, f: Field)
  {
    exists j | 0 <= j < |added| ::
      IsFirstMatch(FieldKeys(fs), PropertyKey(added[j]), fs, f)
  }

  lemma PairedByFieldsStep(ps: seq<Property>, added: seq<Field>, i: nat, p: Property)
    requires i < |added|
    ensures PairedByFields(ps, added[..i + 1], p) <==>
              PairedByFields(ps, added[..i], p) || IsFirstMatch(PropertyKeys(ps), FieldKey(added[i]), ps, p)
  {
    if PairedByFields(ps, added[..i + 1], p) {
      var j :| 0 <= j < i + 1 && IsFirstMatch(PropertyKeys(ps), FieldKey(added[..i + 1][j]), ps, p);
      if j < i {
        assert added[..i][j] == added[..i + 1][j];
      }
    }
    if PairedByFields(ps, added[..i], p) {
      var j :| 0 <= j < i && IsFirstMatch(PropertyKeys(ps), FieldKey(added[..i][j]), ps, p);
      assert added[..i + 1][j] == added[..i][j];
    }
    if IsFirstMatch(PropertyKeys(ps), FieldKey(added[i]), ps, p) {
      assert added[..i + 1][i] == added[i];
    }
  }

  lemma PairedByPropertiesStep(fs: seq<Field>, added: seq<Property>, i: nat, f: Field)
    requires i < |added|
    ensures PairedByProperties(fs, added[..i + 1], f) <==>
              PairedByProperties(fs, added[..i], f) || IsFirstMatch(FieldKeys(fs), PropertyKey(added[i]), fs, f)
  {
    if PairedByProperties(fs, added[..i + 1], f) {
      var j :| 0 <= j < i + 1 && IsFirstMatch(FieldKeys(fs), PropertyKey(added[..i + 1][j]), fs, f);
      if j < i {
        assert added[..i][j] == added[..i + 1][j];
      }
    }
    if PairedByProperties(fs, added[..i], f) {
      var j :| 0 <= j < i && IsFirstMatch(FieldKeys(fs), PropertyKey(added[..i][j]), fs, f);
      assert added[..i + 1][j] == added[..i][j];
    }
    if IsFirstMatch(FieldKeys(fs), PropertyKey(added[i]), fs, f) {
      assert added[..i + 1][i] == added[i];
    }
  }

  class ClassDefinition {
    var elementType: Option<ElementType>
    var pkg: Option<string>
    var className: Option<string>
    var fields: seq<Field>
    var properties: seq<Property>
    var methods: seq<ExecutableElement>
    var typeParameters: seq<string>

    /** No field object and no property object is listed twice. */
    ghost predicate Unaliased()
      reads this
    {
      Distinct(fields) && Distinct(properties)
    }

    ghost function State(): DefinitionState
      reads this, fields, properties
    {
      DefinitionState(elementType, pkg, className, FieldViews(fields), PropertyViews(properties), methods, typeParameters)
    }

    constructor ()
      ensures State() == EmptyState && Unaliased()
    {
      elementType := None;
      pkg := None;
      className := None;
      fields := [];
      properties := [];
      methods := [];
      typeParameters := [];
    }

    method SetElementType(t: Option<ElementType>)
      modifies this`elementType
      ensures elementType == t
    {
      elementType := t;
    }

    method SetPackage(p: Option<string>)
      modifies this`pkg
      ensures pkg == p
    {
      pkg := p;
    }

    method SetClassName(n: Option<string>)
      modifies this`className
      ensures className == n
    {
      className := n;
    }

    /** getFields: a new list holding the same field objects. */
    method GetFields() returns (r: array<Field>)
      ensures fresh(r) && r[..] == fields
    {
      r := new Field[|fields|](i requires 0 <= i < |fields| reads this => fields[i]);
    }

    /**
     * addFields: a null argument changes nothing; otherwise the fields are appended
     * as given, and each field that has a property with its key is flagged together
     * with the first such property.
     */
    method AddFields(fs: Option<seq<Field>>)
      modifies this`fields, properties, ElementsOf(fs)
      ensures fields == old(fields) + ElementsOf(fs)
      ensures forall p | p in properties ::
                p.View() == old(p.View()).(fieldDefined := old(p.fieldDefined) || PairedByFields(properties, ElementsOf(fs), p))
      ensures forall f | f in ElementsOf(fs) ::
                f.View() == old(f.View()).(propertyDefined := old(f.propertyDefined) || FieldKey(f) in PropertyKeys(properties))
    {
      if fs.None? {
        return;
      }
      var added := fs.value;
      fields := fields + added;
      var i := 0;
      while i < |added|
        invariant 0 <= i <= |added|
        invariant fields == old(fields) + added && properties == old(properties)
        invariant forall p | p in properties ::
                    p.View() == old(p.View()).(fieldDefined := old(p.fieldDefined) || PairedByFields(properties, added[..i], p))
        invariant forall f | f in added ::
                    f.View() == old(f.View()).(propertyDefined := old(f.propertyDefined) || (f in added[..i] && FieldKey(f) in PropertyKeys(properties)))
      {
        label Before:
        var g := added[i];
        PairField(g);
        assert added[..i + 1] == added[..i] + [g];
        forall p | p in properties
          ensures p.View() == old(p.View()).(fieldDefined := old(p.fieldDefined) || PairedByFields(properties, added[..i + 1], p))
        {
          PairedByFieldsStep(properties, added, i, p);
        }
        forall f | f in added
          ensures f.View() == old(f.View()).(propertyDefined := old(f.propertyDefined) || (f in added[..i + 1] && FieldKey(f) in PropertyKeys(properties)))
        {
          if f != g {
            assert f.View() == old@Before(f.View());
          }
        }
        i := i + 1;
      }
      assert added[..i] == added;
    }

    /** The body of the pairing loop of addFields, for one field. */
    method PairField(f: Field)
      modifies properties, f
      ensures forall p | p in properties ::
                p.View() == old(p.View()).(fieldDefined := old(p.fieldDefined) || IsFirstMatch(PropertyKeys(properties), FieldKey(f), properties, p))
      ensures f.View() == old(f.View()).(propertyDefined := old(f.propertyDefined) || FieldKey(f) in PropertyKeys(properties))
    {
      var prop := FindProperty(f.name, f.typ);
      if prop != null {
        prop.SetFieldDefined(true);
        f.SetPropertyDefined(true);
      }
    }

    /** findField: the first field with this name and type, or null. */
    method FindField(name: string, typ: JType) returns (r: Field?)
      ensures var k := FirstMatch(FieldKeys(fields), Key(name, typ));
              r == if k < 0 then null else fields[k]
    {
      var i := 0;
      while i < |fields|
        invariant 0 <= i <= |fields|
        invariant forall j | 0 <= j < i :: FieldKey(fields[j]) != Key(name, typ)
      {
        if fields[i].name == name && fields[i].typ == typ {
          FirstMatchAt(FieldKeys(fields), Key(name, typ), i);
          return fields[i];
        }
        i := i + 1;
      }
      return null;
    }

    /** getProperties: a new list holding the same property objects. */
    method GetProperties() returns (r: array<Property>)
      ensures fresh(r) && r[..] == properties
    {
      r := new Property[|properties|](i requires 0 <= i < |properties| reads this => properties[i]);
    }

    /** addProperties: the mirror image of addFields. */
    method AddProperties(ps: Option<seq<Property>>)
      modifies this`properties, fields, ElementsOf(ps)
      ensures properties == old(properties) + ElementsOf(ps)
      ensures forall f | f in fields ::
                f.View() == old(f.View()).(propertyDefined := old(f.propertyDefined) || PairedByProperties(fields, ElementsOf(ps), f))
      ensures forall p | p in ElementsOf(ps) ::
                p.View() == old(p.View()).(fieldDefined := old(p.fieldDefined) || PropertyKey(p) in FieldKeys(fields))
    {
      if ps.None? {
        return;
      }
      var added := ps.value;
      properties := properties + added;
      var i := 0;
      while i < |added|
        invariant 0 <= i <= |added|
        invariant properties == old(properties) + added && fields == old(fields)
        invariant forall f | f in fields ::
                    f.View() == old(f.View()).(propertyDefined := old(f.propertyDefined) || PairedByProperties(fields, added[..i], f))
        invariant forall p | p in added ::
                    p.View() == old(p.View()).(fieldDefined := old(p.fieldDefined) || (p in added[..i] && PropertyKey(p) in FieldKeys(fields)))
      {
        label Before:
        var q := added[i];
        PairProperty(q);
        assert added[..i + 1] == added[..i] + [q];
        forall f | f in fields
          ensures f.View() == old(f.View()).(propertyDefined := old(f.propertyDefined) || PairedByProperties(fields, added[..i + 1], f))
        {
          PairedByPropertiesStep(fields, added, i, f);
        }
        forall p | p in added
          ensures p.View() == old(p.View()).(fieldDefined := old(p.fieldDefined) || (p in added[..i + 1] && PropertyKey(p) in FieldKeys(fields)))
        {
          if p != q {
            assert p.View() == old@Before(p.View());
          }
        }
        i := i + 1;
      }
      assert added[..i] == added;
    }

    /** The body of the pairing loop of addProperties, for one property. */
    method PairProperty(p: Property)
      modifies fields, p
      ensures forall f | f in fields ::
                f.View() == old(f.View()).(propertyDefined := old(f.propertyDefined) || IsFirstMatch(FieldKeys(fields), PropertyKey(p), fields, f))
      ensures p.View() == old(p.View()).(fieldDefined := old(p.fieldDefined) || PropertyKey(p) in FieldKeys(fields))
    {
      var field := FindField(p.name, p.typ);
      if field != null {
        p.SetFieldDefined(true);
        field.SetPropertyDefined(true);
      }
    }

    /** findProperty: the first property with this name and type, or null. */
    method FindProperty(name: string, typ: JType) returns (r: Property?)
      ensures var k := FirstMatch(PropertyKeys(properties), Key(name, typ));
              r == if k < 0 then null else properties[k]
    {
      var i := 0;
      while i < |properties|
        invariant 0 <= i <= |properties|
        invariant forall j | 0 <= j < i :: PropertyKey(properties[j]) != Key(name, typ)
      {
        if properties[i].name == name && properties[i].typ == typ {
          FirstMatchAt(PropertyKeys(properties), Key(name, typ), i);
          return properties[i];
        }
        i := i + 1;
      }
      return null;
    }

    /** getInnerFields: the fields, in order, for which findProperty finds nothing. */
    method GetInnerFields() returns (r: seq<Field>)
      ensures r == InnerFields(fields, PropertyKeys(properties))
    {
      r := [];
      var i := 0;
      while i < |fields|
        invariant 0 <= i <= |fields|
        invariant r == InnerFields(fields[..i], PropertyKeys(properties))
      {
        var field := fields[i];
        var prop := FindProperty(field.name, field.typ);
        if prop == null {
          r := r + [field];
        }
        assert fields[..i + 1][..i] == fields[..i];
        i := i + 1;
      }
      assert fields[..i] == fields;
    }

    method GetMethods() returns (r: array<ExecutableElement>)
      ensures fresh(r) && r[..] == methods
    {
      r := new ExecutableElement[|methods|](i requires 0 <= i < |methods| reads this => methods[i]);
    }

    /** addMethods: a null argument changes nothing; otherwise the methods are appended as given. */
    method AddMethods(ms: Option<seq<ExecutableElement>>)
      modifies this`methods
      ensures methods == old(methods) + ElementsOf(ms)
    {
      if ms.None? {
        return;
      }
      methods := methods + ms.value;
    }

    method GetTypeParameterElements() returns (r: array<string>)
      ensures fresh(r) && r[..] == typeParameters
    {
      r := new string[|typeParameters|](i requires 0 <= i < |typeParameters| reads this => typeParameters[i]);
    }

    method AddTypeParameters(ps: Option<seq<string>>)
      modifies this`typeParameters
      ensures typeParameters == old(typeParameters) + ElementsOf(ps)
    {
      if ps.None? {
        return;
      }
      typeParameters := typeParameters + ps.value;
    }

    /** isHavingIgnoredProperty: some property, read from a copy of the list, is ignored. */
    method IsHavingIgnoredProperty() returns (b: bool)
      ensures b <==> HasIgnored(PropertyViews(properties))
    {
      var copy := GetProperties();
      var i := 0;
      while i < copy.Length
        invariant 0 <= i <= copy.Length
        invariant forall j | 0 <= j < i :: !properties[j].ignore
      {
        if copy[i].ignore {
          assert PropertyViews(properties)[i].ignore;
          return true;
        }
        i := i + 1;
      }
      return false;
    }
  }

  /**
   * The snapshot after addFields with one new field whose snapshot was fv: the
   * field is appended, flagged when some property has its key, and only the
   * first such property is flagged. That is AddFieldToState. Stated on snapshot
   * values so that callers can use it across the call.
   */
  lemma AddedOneField(s: DefinitionState, ps: seq<Property>, f: Field, fv: FieldView, t: DefinitionState)
    requires Distinct(ps) && |s.properties| == |ps| && PropertyViewKeys(s.properties) == PropertyKeys(ps)
    requires Key(fv.name, fv.typ) == FieldKey(f) && !fv.propertyDefined
    requires t.fields == s.fields + [fv.(propertyDefined := FieldKey(f) in PropertyKeys(ps))]
    requires |t.properties| == |ps|
    requires forall j | 0 <= j < |ps| ::
               t.properties[j] == s.properties[j].(fieldDefined := s.properties[j].fieldDefined || PairedByFields(ps, [f], ps[j]))
    requires t.(fields := s.fields, properties := s.properties) == s
    ensures t == AddFieldToState(s, fv)
  {
    var k := FirstMatch(PropertyKeys(ps), FieldKey(f));
    forall j | 0 <= j < |ps|
      ensures PairedByFields(ps, [f], ps[j]) <==> j == k
    {
      if PairedByFields(ps, [f], ps[j]) {
        var m :| 0 <= m < 1 && IsFirstMatch(PropertyKeys(ps), FieldKey([f][m]), ps, ps[j]);
      }
      if j == k {
        assert IsFirstMatch(PropertyKeys(ps), FieldKey([f][0]), ps, ps[j]);
      }
    }
    var u := AddFieldToState(s, fv);
    assert t.properties == u.properties;
  }

  /** The mirror image of AddedOneField: addProperties with one new property is AddPropertyToState. */
  lemma AddedOneProperty(s: DefinitionState, fs: seq<Field>, p: Property, pv: PropertyView, t: DefinitionState)
    requires Distinct(fs) && |s.fields| == |fs| && FieldViewKeys(s.fields) == FieldKeys(fs)
    requires Key(pv.name, pv.typ) == PropertyKey(p) && !pv.fieldDefined
    requires t.properties == s.properties + [pv.(fieldDefined := PropertyKey(p) in FieldKeys(fs))]
    requires |t.fields| == |fs|
    requires forall j | 0 <= j < |fs| ::
               t.fields[j] == s.fields[j].(propertyDefined := s.fields[j].propertyDefined || PairedByProperties(fs, [p], fs[j]))
    requires t.(fields := s.fields, properties := s.properties) == s
    ensures t == AddPropertyToState(s, pv)
  {
    var k := FirstMatch(FieldKeys(fs), PropertyKey(p));
    forall j | 0 <= j < |fs|
      ensures PairedByProperties(fs, [p], fs[j]) <==> j == k
    {
      if PairedByProperties(fs, [p], fs[j]) {
        var m :| 0 <= m < 1 && IsFirstMatch(FieldKeys(fs), PropertyKey([p][m]), fs, fs[j]);
      }
      if j == k {
        assert IsFirstMatch(FieldKeys(fs), PropertyKey([p][0]), fs, fs[j]);
      }
    }
    var u := AddPropertyToState(s, pv);
    assert t.fields == u.fields;
  }
}
