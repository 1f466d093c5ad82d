/**
 * The mutable property record of the interface processor
 * (interfaceprocessor/impl/DefaultProperty.java): like the class processor's
 * record without the `defined` and `fieldDefined` flags.
 */
module InterfaceProperties {
  import opened Wrappers
  import opened LangModel

  /** A snapshot of the nine fields of a property record, in declaration order. */
  datatype PropertyView = PropertyView(
    writable: bool,
    readable: bool,
    name: string,
    typ: JType,
    retainType: string,
    realType: Option<JType>,
    ignore: bool,
    reader: Option<ExecutableElement>,
    writer: Option<ExecutableElement>)

  predicate Coupled(v: PropertyView)
  {
    v.readable == v.reader.Some? && v.writable == v.writer.Some?
  }

  function InitialPropertyView(name: string, typ: JType,
                       reader: Option<ExecutableElement>, writer: Option<ExecutableElement>): (v: PropertyView)
    ensures Coupled(v)
    ensures v.name == name && v.typ == typ && v.reader == reader && v.writer == writer
    ensures !v.ignore && v.realType.None? && v.retainType == "HOLD"
  {
    PropertyView(writer.Some?, reader.Some?, name, typ, "HOLD", None, false, reader, writer)
  }

  /** setReader on a snapshot: the reader and its flag change together, nothing else. */
  function WithReader(v: PropertyView, r: Option<ExecutableElement>): (w: PropertyView)
    ensures w.reader == r && w.readable == r.Some?
    ensures w.(reader := v.reader, readable := v.readable) == v
    ensures Coupled(v) ==> Coupled(w)
  {
    v.(reader := r, readable := r.Some?)
  }

  /** setWriter on a snapshot. */
  function WithWriter(v: PropertyView, w: Option<ExecutableElement>): (u: PropertyView)
    ensures u.writer == w && u.writable == w.Some?
    ensures u.(writer := v.writer, writable := v.writable) == v
    ensures Coupled(v) ==> Coupled(u)
  {
    v.(writer := w, writable := w.Some?)
  }

  class Property {
    var writable: bool
    var readable: bool
    const name: string
    const typ: JType
    var retainType: string
    var realType: Option<JType>
    var ignore: bool
    var reader: Option<ExecutableElement>
    var writer: Option<ExecutableElement>

    function View(): PropertyView
      reads this
    {
      PropertyView(writable, readable, name, typ, retainType, realType, ignore, reader, writer)
    }

    constructor (name: string, typ: JType, reader: Option<ExecutableElement>, writer: Option<ExecutableElement>)
      ensures View() == InitialPropertyView(name, typ, reader, writer)
    {
      this.name := name;
      this.typ := typ;
      this.readable := reader.Some?;
      this.writable := writer.Some?;
      this.reader := reader;
      this.writer := writer;
      retainType := "HOLD";
      realType := None;
      ignore := false;
    }

    method SetRetainType(t: string)
      modifies this`retainType
      ensures View() == old(View()).(retainType := t)
    {
      retainType := t;
    }

    method SetRealType(t: Option<JType>)
      modifies this`realType
      ensures View() == old(View()).(realType := t)
    {
      realType := t;
    }

    method SetIgnored(b: bool)
      modifies this`ignore
      ensures View() == old(View()).(ignore := b)
    {
      ignore := b;
    }

    method SetReader(r: Option<ExecutableElement>)
      modifies this`reader, this`readable
      ensures View() == WithReader(old(View()), r)
    {
      reader := r;
      readable := r.Some?;
    }

    method SetWriter(w: Option<ExecutableElement>)
      modifies this`writer, this`writable
      ensures View() == WithWriter(old(View()), w)
    {
      writer := w;
      writable := w.Some?;
    }
  }
}
