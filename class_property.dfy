/**
 * The mutable property record of the class processor
 * (classprocessor/impl/DefaultProperty.java): `readable` and `writable` are kept
 * equal to the presence of a reader and of a writer.
 */
module ClassProperties {
  import opened Wrappers
  import opened LangModel

  /** A snapshot of the eleven fields of a property record, in declaration order. */
  datatype PropertyView = PropertyView(
    defined: bool,
    writable: bool,
    readable: bool,
    fieldDefined: bool,
    name: string,
    typ: JType,
    retainType: string,
    realType: Option<JType>,
    ignore: bool,
    reader: Option<ExecutableElement>,
    writer: Option<ExecutableElement>)

  /** The flags agree with the accessors. */
  predicate Coupled(v: PropertyView)
  {
    v.readable == v.reader.Some? && v.writable == v.writer.Some?
  }

  /** What a newly constructed record holds. */
  function InitialPropertyView(name: string, typ: JType, defined: bool,
                       reader: Option<ExecutableElement>, writer: Option<ExecutableElement>): (v: PropertyView)
    ensures Coupled(v)
    ensures v.name == name && v.typ == typ && v.defined == defined && v.reader == reader && v.writer == writer
    ensures !v.fieldDefined && !v.ignore && v.realType.None? && v.retainType == "HOLD"
  {
    PropertyView(defined, writer.Some?, reader.Some?, false, name, typ, "HOLD", None, false, reader, writer)
  }

  /** setReader on a snapshot: the reader and its flag change together, nothing else. */
  function WithReader(v: PropertyView, r: Option<ExecutableElement>): (w: PropertyView)
    ensures w.reader == r && w.readable == r.Some?
    ensures w.(reader := v.reader, readable := v.readable) == v
    ensures Coupled(v) ==> Coupled(w)
  {
    v.(reader := r, readable := r.Some?)
  }

  /** setWriter on a snapshot. */
  function WithWriter(v: PropertyView, w: Option<ExecutableElement>): (u: PropertyView)
    ensures u.writer == w && u.writable == w.Some?
    ensures u.(writer := v.writer, writable := v.writable) == v
    ensures Coupled(v) ==> Coupled(u)
  {
    v.(writer := w, writable := w.Some?)
  }

  class Property {
    /** `defined` is only set by the constructor; name and type are final. */
    const defined: bool
    var writable: bool
    var readable: bool
    var fieldDefined: bool
    const name: string
    const typ: JType
    var retainType: string
    var realType: Option<JType>
    var ignore: bool
    var reader: Option<ExecutableElement>
    var writer: Option<ExecutableElement>

    function View(): PropertyView
      reads this
    {
      PropertyView(defined, writable, readable, fieldDefined, name, typ, retainType, realType, ignore, reader, writer)
    }

    constructor (name: string, typ: JType, defined: bool,
                 reader: Option<ExecutableElement>, writer: Option<ExecutableElement>)
      ensures View() == InitialPropertyView(name, typ, defined, reader, writer)
    {
      this.name := name;
      this.typ := typ;
      this.defined := defined;
      this.readable := reader.Some?;
      this.writable := writer.Some?;
      this.reader := reader;
      this.writer := writer;
      fieldDefined := false;
      retainType := "HOLD";
      realType := None;
      ignore := false;
    }

    method SetReader(r: Option<ExecutableElement>)
      modifies this`reader, this`readable
      ensures View() == WithReader(old(View()), r)
    {
      reader := r;
      readable := r.Some?;
    }

    method SetWriter(w: Option<ExecutableElement>)
      modifies this`writer, this`writable
      ensures View() == WithWriter(old(View()), w)
    {
      writer := w;
      writable := w.Some?;
    }

    method SetFieldDefined(b: bool)
      modifies this`fieldDefined
      ensures View() == old(View()).(fieldDefined := b)
    {
      fieldDefined := b;
    }

    method SetRetainType(t: string)
      modifies this`retainType
      ensures View() == old(View()).(retainType := t)
    {
      retainType := t;
    }

    method SetRealType(t: Option<JType>)
      modifies this`realType
      ensures View() == old(View()).(realType := t)
    {
      realType := t;
    }

    method SetIgnored(b: bool)
      modifies this`ignore
      ensures View() == old(View()).(ignore := b)
    {
      ignore := b;
    }

    /** DefaultProperty.equals: false for null, otherwise a field-by-field comparison. */
    method Equals(other: Property?) returns (r: bool)
      ensures r <==> other != null && View() == other.View()
    {
      if other == null {
        return false;
      }
      if defined != other.defined { return false; }
      if writable != other.writable { return false; }
      if readable != other.readable { return false; }
      if fieldDefined != other.fieldDefined { return false; }
      if name != other.name { return false; }
      if typ != other.typ { return false; }
      if retainType != other.retainType { return false; }
      if realType != other.realType { return false; }
      if ignore != other.ignore { return false; }
      if reader != other.reader { return false; }
      if writer != other.writer { return false; }
      return true;
    }
  }
}
