/** The mutable field record of the class processor (classprocessor/impl/DefaultField.java). */
module ClassFields {
  import opened Wrappers
  import opened LangModel

  /** A snapshot of every attribute of a field record. */
  datatype FieldView = FieldView(
    name: string,
    typ: JType,
    propertyDefined: bool,
    retainType: string,
    realType: Option<JType>,
    ignore: bool,
    readOnly: bool,
    methodModifier: string)

  /** What a newly constructed record holds: only name and type come from the caller. */
  function InitialFieldView(name: string, typ: JType): (v: FieldView)
    ensures v.name == name && v.typ == typ
    ensures !v.propertyDefined && !v.ignore && !v.readOnly && v.realType.None?
    ensures v.retainType == "HOLD" && v.methodModifier == "PUBLIC"
  {
    FieldView(name, typ, false, "HOLD", None, false, false, "PUBLIC")
  }

  /**
   * The record's defaults agree with the defaults declared on the @Field
   * annotation, except that the annotation names Void.class where the record
   * holds null.
   */
  lemma DefaultsMatchFieldAnnotation(name: string, typ: JType)
    ensures InitialFieldView(name, typ).retainType == FieldAnnotationDefaults.retainType
    ensures InitialFieldView(name, typ).ignore == FieldAnnotationDefaults.ignore
    ensures InitialFieldView(name, typ).readOnly == FieldAnnotationDefaults.readOnly
    ensures InitialFieldView(name, typ).methodModifier == FieldAnnotationDefaults.methodModifier
    ensures InitialFieldView(name, typ).realType != Some(FieldAnnotationDefaults.realType)
  {
  }

  class Field {
    /** Name and type are set by the constructor and have no setter. */
    const name: string
    const typ: JType
    var propertyDefined: bool
    var retainType: string
    var realType: Option<JType>
    var ignore: bool
    var readOnly: bool
    var methodModifier: string

    function View(): FieldView
      reads this
    {
      FieldView(name, typ, propertyDefined, retainType, realType, ignore, readOnly, methodModifier)
    }

    constructor (name: string, typ: JType)
      ensures View() == InitialFieldView(name, typ)
    {
      this.name := name;
      this.typ := typ;
      propertyDefined := false;
      retainType := "HOLD";
      realType := None;
      ignore := false;
      readOnly := false;
      methodModifier := "PUBLIC";
    }

    method SetPropertyDefined(b: bool)
      modifies this`propertyDefined
      ensures View() == old(View()).(propertyDefined := b)
    {
      propertyDefined := b;
    }

    method SetRetainType(t: string)
      modifies this`retainType
      ensures View() == old(View()).(retainType := t)
    {
      retainType := t;
    }

    method SetRealType(t: Option<JType>)
      modifies this`realType
      ensures View() == old(View()).(realType := t)
    {
      realType := t;
    }

    method SetIgnored(b: bool)
      modifies this`ignore
      ensures View() == old(View()).(ignore := b)
    {
      ignore := b;
    }

    method SetReadOnly(b: bool)
      modifies this`readOnly
      ensures View() == old(View()).(readOnly := b)
    {
      readOnly := b;
    }

    method SetMethodModifier(m: string)
      modifies this`methodModifier
      ensures View() == old(View()).(methodModifier := m)
    {
      methodModifier := m;
    }
  }
}
