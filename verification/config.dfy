/**
 * MetalTensors/Config.cs: the argument dictionary of a configuration, the
 * shape of the XML its writer produces (attributes before child elements,
 * a shared object written in full once and by reference afterwards) and
 * the reader that resolves references and matches an element's attributes
 * and children to constructor parameters.
 *
 * The XmlWriter is modelled by the list of calls made on it; the
 * reflection that finds a type's constructor is replaced by a given
 * parameter list per type name.
 */
module Configs {
  import opened Common
  import opened Text

  /** A configuration value, classified the way the writer's type tests classify it. */
  datatype Value =
    | Null
    | Str(s: string)
    | Int(i: int)
    /** any other IConvertible (float, bool, an enum, ...): its type name and invariant-culture text */
    | Scalar(typeName: string, text: string)
    /** a DateTime: its round-trip ("O") text and its invariant-culture text */
    | Date(roundTrip: string, invariantText: string)
    | Ints(xs: seq<int>)
    /** a Vector3 or Vector4: the invariant-culture texts of its components */
    | Vector(components: seq<string>)
    /** a Config stored as a value */
    | Nested(settings: Settings)
    | Object(conf: Configurable)
    /** any other array */
    | Array(items: seq<Value>)
    /** any other object */
    | Opaque(display: string)

  datatype Entry = Entry(key: string, value: Value)

  /** The arguments of a Config, in the dictionary's enumeration (insertion) order. */
  datatype Settings = Settings(entries: seq<Entry>)

  /** A Configurable: its Id and the Config its Config property builds. */
  datatype Configurable = Configurable(id: int, settings: Settings)

  // ---------------------------------------------------------------------------
  // The argument dictionary

  function KeysOf(es: seq<Entry>): (ks: seq<string>)
    ensures |ks| == |es| && forall i :: 0 <= i < |es| ==> ks[i] == es[i].key
  {
    if es == [] then [] else [es[0].key] + KeysOf(es[1..])
  }

  /** The keys of a dictionary are distinct. */
  predicate UniqueKeys(es: seq<Entry>)
  {
    var ks := KeysOf(es);
    forall i, j :: 0 <= i < j < |ks| ==> ks[i] != ks[j]
  }

  /** The dictionary's TryGetValue: the value stored under key, if any. */
  function Lookup(es: seq<Entry>, key: string): (r: Option<Value>)
    ensures r.Some? <==> key in KeysOf(es)
  {
    if es == [] then None
    else if es[0].key == key then Some(es[0].value)
    else Lookup(es[1..], key)
  }

  /** arguments[key] = value: an existing key keeps its place, a new key goes last. */
  function Put(es: seq<Entry>, key: string, value: Value): seq<Entry>
  {
    if es == [] then [Entry(key, value)]
    else if es[0].key == key then [Entry(key, value)] + es[1..]
    else [es[0]] + Put(es[1..], key, value)
  }

  /** The entries of other stored one by one, in other's order. */
  function PutAll(es: seq<Entry>, other: seq<Entry>): seq<Entry>
  {
    if other == [] then es
    else
      var last := other[|other| - 1];
      Put(PutAll(es, other[..|other| - 1]), last.key, last.value)
  }

  /** Storing under key overwrites that key and leaves every other key's value alone. */
  lemma {:induction false} PutLookup(es: seq<Entry>, key: string, value: Value, k: string)
    ensures Lookup(Put(es, key, value), k) == if k == key then Some(value) else Lookup(es, k)
  {
    if es != [] && es[0].key != key {
      PutLookup(es[1..], key, value, k);
    }
  }

  /** A key already present keeps its place; a new key is added last. */
  lemma {:induction false} PutKeys(es: seq<Entry>, key: string, value: Value)
    ensures KeysOf(Put(es, key, value)) == if key in KeysOf(es) then KeysOf(es) else KeysOf(es) + [key]
  {
    if es != [] && es[0].key != key {
      PutKeys(es[1..], key, value);
    }
  }

  /** Storing keeps the keys unique, and the stored value is found under its key. */
  lemma PutMeaning(es: seq<Entry>, key: string, value: Value)
    requires UniqueKeys(es)
    ensures UniqueKeys(Put(es, key, value))
    ensures forall k :: Lookup(Put(es, key, value), k) == if k == key then Some(value) else Lookup(es, k)
  {
    var r := Put(es, key, value);
    PutKeys(es, key, value);
    forall k
      ensures Lookup(r, k) == if k == key then Some(value) else Lookup(es, k)
    {
      PutLookup(es, key, value, k);
    }
  }

  lemma KeysOfSnoc(es: seq<Entry>, e: Entry)
    ensures KeysOf(es + [e]) == KeysOf(es) + [e.key]
  {
    var ks := KeysOf(es + [e]);
    assert forall i :: 0 <= i < |ks| ==> ks[i] == (KeysOf(es) + [e.key])[i];
  }

  /** Update keeps the keys unique. */
  lemma {:induction false} PutAllUnique(es: seq<Entry>, other: seq<Entry>)
    requires UniqueKeys(es)
    ensures UniqueKeys(PutAll(es, other))
  {
    if other != [] {
      var init := other[..|other| - 1];
      var last := other[|other| - 1];
      PutAllUnique(es, init);
      PutMeaning(PutAll(es, init), last.key, last.value);
    }
  }

  /**
   * Update(other): a key of other maps to other's value afterwards and
   * every other key keeps its old value.
   */
  lemma {:induction false} PutAllLookup(es: seq<Entry>, other: seq<Entry>, k: string)
    requires UniqueKeys(other)
    ensures Lookup(PutAll(es, other), k) == if k in KeysOf(other) then Lookup(other, k) else Lookup(es, k)
  {
    if other != [] {
      var init := other[..|other| - 1];
      var last := other[|other| - 1];
      assert other == init + [last];
      assert UniqueKeys(init);
      PutAllLookup(es, init, k);
      PutLookup(PutAll(es, init), last.key, last.value, k);
      KeysOfSnoc(init, last);
      LookupSnoc(init, last, k);
    }
  }

  /** The lookup in a dictionary whose last entry has a fresh key. */
  lemma {:induction false} LookupSnoc(init: seq<Entry>, last: Entry, k: string)
    requires UniqueKeys(init + [last])
    ensures Lookup(init + [last], k) == if k == last.key then Some(last.value) else Lookup(init, k)
    decreases |init|
  {
    var s := init + [last];
    if init == [] {
    } else {
      assert s[0] == init[0] && s[1..] == init[1..] + [last];
      if init[0].key != k {
        LookupSnoc(init[1..], last, k);
      } else {
        var ks := KeysOf(s);
        assert ks[0] == s[0].key && ks[|s| - 1] == s[|s| - 1].key;
      }
    }
  }

  /**
   * The Config object: a dictionary that Add and Update change in place.
   * Its entries always have distinct keys.
   */
  class Config {
    var entries: seq<Entry>

    ghost predicate Valid()
      reads this
    {
      UniqueKeys(entries)
    }

    constructor ()
      ensures entries == [] && Valid()
    {
      entries := [];
    }

    /** The indexer: the stored value, or None where the source answers null. */
    function Get(parameter: string): (r: Option<Value>)
      reads this
      ensures r.Some? <==> parameter in KeysOf(entries)
    {
      Lookup(entries, parameter)
    }

    /** Add(parameter, argument): stores the argument, overwriting, and returns this same Config. */
    method Add(parameter: string, argument: Value) returns (r: Config)
      requires Valid()
      modifies this
      ensures r == this && Valid()
      ensures entries == Put(old(entries), parameter, argument)
      ensures Get(parameter) == Some(argument)
      ensures forall k :: k != parameter ==> Get(k) == old(Get(k))
    {
      PutMeaning(entries, parameter, argument);
      entries := Put(entries, parameter, argument);
      return this;
    }

    /** Update(other): stores every entry of other in other's order and returns this same Config. */
    method Update(other: Config) returns (r: Config)
      requires Valid() && other.Valid()
      modifies this
      ensures r == this && Valid()
      ensures entries == PutAll(old(entries), old(other.entries))
      ensures forall k :: Get(k) == if k in KeysOf(old(other.entries)) then old(other.Get(k)) else old(Get(k))
    {
      var source := other.entries;
      for i := 0 to |source|
        invariant entries == PutAll(old(entries), source[..i])
      {
        assert source[..i + 1][..i] == source[..i];
        entries := Put(entries, source[i].key, source[i].value);
      }
      assert source[..|source|] == source;
      PutAllUnique(old(entries), source);
      forall k
        ensures Get(k) == if k in KeysOf(source) then Lookup(source, k) else Lookup(old(entries), k)
      {
        PutAllLookup(old(entries), source, k);
      }
      return this;
    }

    function Snapshot(): Settings
      reads this
    {
      Settings(entries)
    }
  }

  /** The Id getter: the stored int, 0 when absent or null, an InvalidCastException for any other value. */
  function IdOf(c: Settings): (r: Outcome<int>)
    ensures Lookup(c.entries, "id").None? ==> r == Ok(0)
  {
    match Lookup(c.entries, "id")
    case None => Ok(0)
    case Some(Null) => Ok(0)
    case Some(Int(i)) => Ok(i)
    case Some(_) => Fail(InvalidCast)
  }

  /**
   * The ObjectType getter: the text of the stored "type" value, "" when it is
   * absent or null.  Text, numbers, dates, int arrays, vectors and other
   * objects give their ToString text; nested configs, configurables and other
   * arrays give "" here (their ToString is not part of this model).
   */
  function TypeName(c: Settings): (r: string)
    ensures Lookup(c.entries, "type").None? || Lookup(c.entries, "type") == Some(Null) ==> r == ""
    ensures Lookup(c.entries, "type").Some? && Lookup(c.entries, "type").value.Str? ==> r == Lookup(c.entries, "type").value.s
    ensures Lookup(c.entries, "type").Some? && Lookup(c.entries, "type").value.Int? ==>
      r == IntToString(Lookup(c.entries, "type").value.i)
    ensures Lookup(c.entries, "type").Some? && Lookup(c.entries, "type").value.Opaque? ==>
      r == Lookup(c.entries, "type").value.display
  {
    match Lookup(c.entries, "type")
    case None => ""
    case Some(Null) => ""
    case Some(Str(s)) => s
    case Some(Int(i)) => IntToString(i)
    case Some(Scalar(_, text)) => text
    case Some(Date(_, invariantText)) => invariantText
    case Some(Ints(_)) => "System.Int32[]"
    case Some(Vector(components)) => "<" + Join(", ", components) + ">"
    case Some(Opaque(display)) => display
    case Some(_) => ""
  }

  // ---------------------------------------------------------------------------
  // Attribute or child element

  /**
   * ValueGoesInAttribute. A string's length is its .NET Length, counted in
   * UTF-16 code units.
   */
  predicate GoesInAttribute(v: Value)
  {
    match v
    case Null => true
    case Str(s) => Utf16Length(s) < 256 && !('\r' in s || '\n' in s || '\t' in s)
    case Int(_) => true
    case Scalar(_, _) => true
    case Date(_, _) => true
    case Nested(_) => false
    case Ints(_) => true
    case Vector(_) => true
    case Object(_) => false
    case Array(_) => false
    case Opaque(_) => false
  }

  /** Within the Basic Multilingual Plane, a string shorter than 256 characters without CR, LF or tab is an attribute. */
  lemma BmpStringInAttribute(s: string)
    requires forall i :: 0 <= i < |s| ==> s[i] as int <= 0xFFFF
    ensures GoesInAttribute(Str(s)) <==> |s| < 256 && !('\r' in s || '\n' in s || '\t' in s)
  {
    Utf16LengthBmp(s);
  }

  /** A string of characters above U+FFFF counts two code units each, so 128 of them make a child element. */
  lemma AstralStringInAttribute(s: string)
    requires forall i :: 0 <= i < |s| ==> s[i] as int > 0xFFFF
    ensures GoesInAttribute(Str(s)) <==> |s| < 128
  {
    Utf16LengthAstral(s);
  }

  /** GetAttributeString, on the values that go in attributes. */
  function AttributeString(v: Value): string
    requires GoesInAttribute(v)
  {
    match v
    case Null => "null"
    case Str(s) => s
    case Int(i) => IntToString(i)
    case Scalar(_, text) => text
    case Date(roundTrip, _) => roundTrip
    case Ints(xs) => JoinInts(xs)
    case Vector(components) => Join(", ", components)
  }

  predicate Reserved(key: string) { key == "id" || key == "type" }

  /** The attributes WriteConfig's first loop writes, in entry order. */
  function AttributeEvents(es: seq<Entry>): seq<XmlEvent>
  {
    if es == [] then []
    else
      var a := es[|es| - 1];
      AttributeEvents(es[..|es| - 1])
      + if !Reserved(a.key) && GoesInAttribute(a.value) then [Attribute(a.key, AttributeString(a.value))] else []
  }

  /** The entries WriteConfig's first loop sets aside (the rem list) for child elements. */
  function Rem(es: seq<Entry>): seq<Entry>
  {
    if es == [] then []
    else
      var a := es[|es| - 1];
      Rem(es[..|es| - 1]) + if !Reserved(a.key) && !GoesInAttribute(a.value) then [a] else []
  }

  /**
   * Every entry except "id" and "type" is written exactly once: as an
   * attribute when its value goes in an attribute, as a child element
   * otherwise; nothing else is written, and no attribute is named "id" or
   * "type".
   */
  lemma {:induction false} EntriesWrittenOnce(es: seq<Entry>)
    ensures forall i :: 0 <= i < |AttributeEvents(es)| ==>
      AttributeEvents(es)[i].Attribute? && !Reserved(AttributeEvents(es)[i].name)
    ensures forall i :: 0 <= i < |Rem(es)| ==> !Reserved(Rem(es)[i].key) && !GoesInAttribute(Rem(es)[i].value)
    ensures forall e :: e in es && !Reserved(e.key) && GoesInAttribute(e.value) ==> Attribute(e.key, AttributeString(e.value)) in AttributeEvents(es)
    ensures forall e :: e in es && !Reserved(e.key) && !GoesInAttribute(e.value) ==> e in Rem(es)
    ensures |AttributeEvents(es)| + |Rem(es)| + |ReservedEntries(es)| == |es|
  {
    if es != [] {
      var init := es[..|es| - 1];
      EntriesWrittenOnce(init);
      assert es == init + [es[|es| - 1]];
    }
  }

  function ReservedEntries(es: seq<Entry>): seq<Entry>
  {
    if es == [] then []
    else
      var a := es[|es| - 1];
      ReservedEntries(es[..|es| - 1]) + if Reserved(a.key) then [a] else []
  }

  // ---------------------------------------------------------------------------
  // Writing

  /** The calls made on the XmlWriter. */
  datatype XmlEvent =
    | StartElement(name: string)
    | Attribute(name: string, value: string)
    | EndElement
    | ElementString(name: string, text: string)

  /** The XmlWriter, as the list of calls made on it so far. */
  class XmlWriter {
    var events: seq<XmlEvent>

    constructor ()
      ensures events == []
    {
      events := [];
    }
  }

  /** A complete element: its start, some content, its end. */
  predicate IsElement(chunk: seq<XmlEvent>, name: string)
  {
    |chunk| >= 2 && chunk[0] == StartElement(name) && chunk[|chunk| - 1] == EndElement
  }

  function Concat(chunks: seq<seq<XmlEvent>>): seq<XmlEvent>
  {
    if chunks == [] then [] else Concat(chunks[..|chunks| - 1]) + chunks[|chunks| - 1]
  }

  /** The element WriteConfigurable writes for an object already written. */
  function RefElement(conf: Configurable): seq<XmlEvent>
  {
    [StartElement(TypeName(conf.settings)), Attribute("refid", IntToString(conf.id)), EndElement]
  }

  /** The single element WriteValueElement writes for a scalar value. */
  function ScalarElement(v: Value): Option<XmlEvent>
  {
    match v
    case Null => Some(ElementString("Null", ""))
    case Str(s) => Some(ElementString("String", s))
    case Int(i) => Some(ElementString("Int32", IntToString(i)))
    case Scalar(typeName, text) => Some(ElementString(typeName, text))
    case Date(_, invariantText) => Some(ElementString("DateTime", invariantText))
    case _ => None
  }

  function IntElements(xs: seq<int>): seq<XmlEvent>
  {
    if xs == [] then [] else IntElements(xs[..|xs| - 1]) + [ElementString("Int32", IntToString(xs[|xs| - 1]))]
  }

  lemma RemInEntries(es: seq<Entry>)
    ensures forall e :: e in Rem(es) ==> e in es
  {
    if es != [] {
      RemInEntries(es[..|es| - 1]);
    }
  }

  /** What a successful write leaves behind: the references afterwards and the calls made. */
  datatype Written = Written(references: set<Configurable>, events: seq<XmlEvent>)

  /** A write that first made the calls prefix, then did x. */
  function Then(prefix: seq<XmlEvent>, x: Outcome<Written>): (r: Outcome<Written>)
    ensures r.Fail? <==> x.Fail?
    ensures x.Fail? ==> r == x
    ensures x.Ok? ==> r.value.references == x.value.references && r.value.events == prefix + x.value.events
  {
    match x
    case Ok(written) => Ok(Written(written.references, prefix + written.events))
    case Fail(e) => Fail(e)
  }

  lemma ThenEmpty(x: Outcome<Written>)
    ensures Then([], x) == x
  {
    if x.Ok? {
      assert [] + x.value.events == x.value.events;
    }
  }

  lemma ThenThen(p: seq<XmlEvent>, q: seq<XmlEvent>, x: Outcome<Written>)
    ensures Then(p, Then(q, x)) == Then(p + q, x)
  {
    if x.Ok? {
      assert p + (q + x.value.events) == (p + q) + x.value.events;
    }
  }

  /**
   * The XML WriteConfig produces for c, given the objects already written:
   * the start element named by the type, the id attribute, the attributes,
   * the child elements, the end element; an id that is not an int fails.
   */
  function ConfigXml(c: Settings, references: set<Configurable>): Outcome<Written>
    decreases c, 1
  {
    ConfigElement(c, IdOf(c), ChildrenXml(c, 0, references))
  }

  /** The element of c around its id and its children's XML; a failing id or child fails it. */
  function ConfigElement(c: Settings, id: Outcome<int>, children: Outcome<Written>): Outcome<Written>
  {
    var i :- id;
    var written :- children;
    Ok(Written(written.references,
      [StartElement(TypeName(c)), Attribute("id", IntToString(i))]
      + AttributeEvents(c.entries) + written.events + [EndElement]))
  }

  /** The child elements for the set-aside entries of c from index j on, in order, each named by its key. */
  function ChildrenXml(c: Settings, j: nat, references: set<Configurable>): Outcome<Written>
    requires j <= |Rem(c.entries)|
    decreases c, 0, |Rem(c.entries)| - j
  {
    if j == |Rem(c.entries)| then Ok(Written(references, []))
    else
      var e := Rem(c.entries)[j];
      RemInEntries(c.entries);
      assert e in c.entries;
      var child :- ValueXml(e.value, references);
      Then([StartElement(e.key)] + child.events + [EndElement], ChildrenXml(c, j + 1, child.references))
  }

  /** One step of ChildrenXml: the j-th set-aside entry's element, then the rest. */
  lemma ChildrenXmlStep(c: Settings, j: nat, references: set<Configurable>)
    requires j < |Rem(c.entries)|
    ensures var e := Rem(c.entries)[j]; var child := ValueXml(e.value, references);
      ChildrenXml(c, j, references) == if child.Fail? then Fail(child.error)
        else Then([StartElement(e.key)] + child.value.events + [EndElement], ChildrenXml(c, j + 1, child.value.references))
  {
  }

  /** The XML WriteValueElement produces for v. */
  function ValueXml(v: Value, references: set<Configurable>): Outcome<Written>
    decreases v, 2
  {
    if ScalarElement(v).Some? then Ok(Written(references, [ScalarElement(v).value]))
    else match v
      case Nested(settings) => ConfigXml(settings, references)
      case Object(conf) => ConfigurableXml(conf, references)
      case Ints(xs) => Ok(Written(references, [StartElement("Array")] + IntElements(xs) + [EndElement]))
      case Array(items) =>
        var inner :- ItemsXml(v, 0, references);
        Ok(Written(inner.references, [StartElement("Array")] + inner.events + [EndElement]))
      case _ => Fail(NotSupported)
  }

  /** The value elements of the items of an array from index i on, in order. */
  function ItemsXml(v: Value, i: nat, references: set<Configurable>): Outcome<Written>
    requires v.Array? && i <= |v.items|
    decreases v, 1, |v.items| - i
  {
    if i == |v.items| then Ok(Written(references, []))
    else
      var item :- ValueXml(v.items[i], references);
      Then(item.events, ItemsXml(v, i + 1, item.references))
  }

  /** The XML WriteConfigurable produces: a refid element for an object already written, else the object in full. */
  function ConfigurableXml(conf: Configurable, references: set<Configurable>): Outcome<Written>
    decreases conf, 2
  {
    if conf in references then Ok(Written(references, RefElement(conf)))
    else ConfigXml(conf.settings, references + {conf})
  }

  /** A writer method did x: on success it made exactly x's calls and returned its references; else it failed as x does. */
  ghost predicate Wrote(x: Outcome<Written>, r: Outcome<set<Configurable>>, before: seq<XmlEvent>, after: seq<XmlEvent>)
  {
    match x
    case Ok(written) => r == Ok(written.references) && after == before + written.events
    case Fail(e) => r == Fail(e)
  }

  /**
   * WriteConfig: the element named by the type, its id attribute, every
   * attribute-valued entry as an attribute, then one child element per
   * remaining entry, in entry order; "id" and "type" are never written
   * again. Objects written along the way join the references.
   */
  method WriteConfig(c: Settings, w: XmlWriter, references: set<Configurable>)
    returns (r: Outcome<set<Configurable>>, ghost children: seq<seq<XmlEvent>>)
    modifies w
    decreases c, 1
    ensures r.Ok? ==> references <= r.value
    ensures IdOf(c).Fail? ==> r == Fail(IdOf(c).error)
    ensures r.Ok? ==> (IdOf(c).Ok?
      && |children| == |Rem(c.entries)|
      && (forall i :: 0 <= i < |children| ==> IsElement(children[i], Rem(c.entries)[i].key))
      && w.events == old(w.events)
        + [StartElement(TypeName(c)), Attribute("id", IntToString(IdOf(c).value))]
        + AttributeEvents(c.entries) + Concat(children) + [EndElement])
    ensures Wrote(ConfigXml(c, references), r, old(w.events), w.events)
  {
    children := [];
    w.events := w.events + [StartElement(TypeName(c))];
    var id := IdOf(c);
    if id.Fail? {
      IdFailWritten(c, id, ChildrenXml(c, 0, references), old(w.events), w.events);
      return Fail(id.error), children;
    }
    w.events := w.events + [Attribute("id", IntToString(id.value))];
    ghost var head := w.events;
    assert head == old(w.events) + [StartElement(TypeName(c)), Attribute("id", IntToString(id.value))];
    var rem := WriteAttributes(c.entries, w);
    ghost var body := w.events;
    r, children := WriteChildren(c, rem, w, references);
    if r.Fail? {
      ElementWritten(c, id, ChildrenXml(c, 0, references), r, old(w.events), body, w.events, w.events);
      return;
    }
    ghost var mid := w.events;
    w.events := w.events + [EndElement];
    ElementWritten(c, id, ChildrenXml(c, 0, references), r, old(w.events), body, mid, w.events);
  }

  /** An id that is not an int fails the element with its error, whatever was logged. */
  lemma IdFailWritten(c: Settings, id: Outcome<int>, children: Outcome<Written>, before: seq<XmlEvent>, after: seq<XmlEvent>)
    requires id.Fail?
    ensures Wrote(ConfigElement(c, id, children), Fail(id.error), before, after)
  {
  }

  /**
   * After the start element, the id and the attributes, the children as
   * their XML says and then the end element make up the element.
   */
  lemma ElementWritten(c: Settings, id: Outcome<int>, children: Outcome<Written>, r: Outcome<set<Configurable>>,
                       start: seq<XmlEvent>, body: seq<XmlEvent>, mid: seq<XmlEvent>, after: seq<XmlEvent>)
    requires id.Ok?
    requires body == start + [StartElement(TypeName(c)), Attribute("id", IntToString(id.value))] + AttributeEvents(c.entries)
    requires Wrote(children, r, body, mid)
    requires r.Ok? ==> after == mid + [EndElement]
    ensures Wrote(ConfigElement(c, id, children), r, start, after)
  {
    if children.Ok? {
      EventsRegrouped(start, [StartElement(TypeName(c)), Attribute("id", IntToString(id.value))],
        AttributeEvents(c.entries), children.value.events, mid, after);
    }
  }

  /** The log as the writer appends it, regrouped as ConfigElement builds it. */
  lemma EventsRegrouped(start: seq<XmlEvent>, head: seq<XmlEvent>, attributes: seq<XmlEvent>,
                        children: seq<XmlEvent>, mid: seq<XmlEvent>, after: seq<XmlEvent>)
    requires mid == start + head + attributes + children && after == mid + [EndElement]
    ensures after == start + (head + attributes + children + [EndElement])
  {
  }

  /** The first loop of WriteConfig: attribute-valued entries are written, the rest are set aside. */
  method WriteAttributes(entries: seq<Entry>, w: XmlWriter) returns (rem: seq<Entry>)
    modifies w
    ensures rem == Rem(entries)
    ensures w.events == old(w.events) + AttributeEvents(entries)
  {
    rem := [];
    for i := 0 to |entries|
      invariant rem == Rem(entries[..i])
      invariant w.events == old(w.events) + AttributeEvents(entries[..i])
    {
      var a := entries[i];
      assert entries[..i + 1][..i] == entries[..i];
      if !Reserved(a.key) {
        if GoesInAttribute(a.value) {
          w.events := w.events + [Attribute(a.key, AttributeString(a.value))];
        } else {
          rem := rem + [a];
        }
      }
    }
    assert entries[..|entries|] == entries;
  }

  /** The second loop of WriteConfig: one child element per set-aside entry, named by its key. */
  method WriteChildren(c: Settings, rem: seq<Entry>, w: XmlWriter, references: set<Configurable>)
    returns (r: Outcome<set<Configurable>>, ghost children: seq<seq<XmlEvent>>)
    requires rem == Rem(c.entries)
    modifies w
    decreases c, 0, 1
    ensures r.Ok? ==> (references <= r.value
      && |children| == |rem|
      && (forall i :: 0 <= i < |children| ==> IsElement(children[i], rem[i].key))
      && w.events == old(w.events) + Concat(children))
    ensures Wrote(ChildrenXml(c, 0, references), r, old(w.events), w.events)
  {
    children := [];
    var refs := references;
    ThenEmpty(ChildrenXml(c, 0, references));
    for j := 0 to |rem|
      invariant w.events == old(w.events) + Concat(children)
      invariant |children| == j && forall k :: 0 <= k < j ==> IsElement(children[k], rem[k].key)
      invariant references <= refs
      invariant ChildrenXml(c, 0, references) == Then(Concat(children), ChildrenXml(c, j, refs))
    {
      var written, chunk := WriteChild(c, j, w, refs, old(w.events), children);
      if written.Fail? {
        return Fail(written.error), children;
      }
      refs := written.value;
      children := children + [chunk];
    }
    ChildrenDone(c, refs, Concat(children));
    return Ok(refs), children;
  }

  /**
   * One pass of WriteChildren's loop: the element named by the j-th set-aside
   * entry's key around its value. Written after the chunks so far, it is one
   * more chunk, and ChildrenXml moves on to the next entry.
   */
  method WriteChild(c: Settings, j: nat, w: XmlWriter, references: set<Configurable>,
                    ghost start: seq<XmlEvent>, ghost children: seq<seq<XmlEvent>>)
    returns (r: Outcome<set<Configurable>>, ghost chunk: seq<XmlEvent>)
    requires j < |Rem(c.entries)| && w.events == start + Concat(children)
    modifies w
    decreases c, 0, 0
    ensures r.Fail? ==> Then(Concat(children), ChildrenXml(c, j, references)) == Fail(r.error)
    ensures r.Ok? ==> (references <= r.value
      && IsElement(chunk, Rem(c.entries)[j].key)
      && w.events == start + Concat(children + [chunk])
      && Then(Concat(children), ChildrenXml(c, j, references))
         == Then(Concat(children + [chunk]), ChildrenXml(c, j + 1, r.value)))
  {
    RemInEntries(c.entries);
    var e := Rem(c.entries)[j];
    ghost var before := w.events;
    w.events := w.events + [StartElement(e.key)];
    assert e in c.entries;
    r := WriteValueElement(e.value, w, references);
    if r.Fail? {
      ChildFails(c, j, references, Concat(children));
      return r, [];
    }
    w.events := w.events + [EndElement];
    ChildWritten(c, j, references, start, children, before, w.events);
    chunk := w.events[|before|..];
  }

  /** A child whose value cannot be written ends ChildrenXml with that value's error. */
  lemma ChildFails(c: Settings, j: nat, refs: set<Configurable>, prefix: seq<XmlEvent>)
    requires j < |Rem(c.entries)| && ValueXml(Rem(c.entries)[j].value, refs).Fail?
    ensures Then(prefix, ChildrenXml(c, j, refs)) == Fail(ValueXml(Rem(c.entries)[j].value, refs).error)
  {
    ChildrenXmlStep(c, j, refs);
  }

  /**
   * A child written in full is one more element chunk of the log, and its
   * element moves from the rest of ChildrenXml into the written chunks.
   */
  lemma ChildWritten(c: Settings, j: nat, refs: set<Configurable>, start: seq<XmlEvent>,
                     children: seq<seq<XmlEvent>>, before: seq<XmlEvent>, after: seq<XmlEvent>)
    requires j < |Rem(c.entries)| && ValueXml(Rem(c.entries)[j].value, refs).Ok?
    requires before == start + Concat(children)
    requires after == before + [StartElement(Rem(c.entries)[j].key)] + ValueXml(Rem(c.entries)[j].value, refs).value.events + [EndElement]
    ensures IsElement(after[|before|..], Rem(c.entries)[j].key)
    ensures after == start + Concat(children + [after[|before|..]])
    ensures Then(Concat(children), ChildrenXml(c, j, refs))
         == Then(Concat(children + [after[|before|..]]), ChildrenXml(c, j + 1, ValueXml(Rem(c.entries)[j].value, refs).value.references))
  {
    var child := ValueXml(Rem(c.entries)[j].value, refs).value;
    var chunk := [StartElement(Rem(c.entries)[j].key)] + child.events + [EndElement];
    assert after[|before|..] == chunk;
    ChildrenXmlStep(c, j, refs);
    ThenThen(Concat(children), chunk, ChildrenXml(c, j + 1, child.references));
    assert (children + [chunk])[..|children|] == children;
  }

  /** Past the last child, ChildrenXml adds nothing: the chunks written are the whole result. */
  lemma ChildrenDone(c: Settings, refs: set<Configurable>, prefix: seq<XmlEvent>)
    ensures Then(prefix, ChildrenXml(c, |Rem(c.entries)|, refs)) == Ok(Written(refs, prefix))
  {
    assert prefix + [] == prefix;
  }

  /**
   * WriteValueElement: a scalar becomes one element holding its text, a
   * Config or an object is written as an element, an array as an "Array"
   * element of its items; a vector or any other object cannot be written.
   */
  method WriteValueElement(v: Value, w: XmlWriter, references: set<Configurable>) returns (r: Outcome<set<Configurable>>)
    modifies w
    decreases v, 2
    ensures r.Ok? ==> references <= r.value && old(w.events) <= w.events
    ensures ScalarElement(v).Some? ==> r == Ok(references) && w.events == old(w.events) + [ScalarElement(v).value]
    ensures v.Ints? ==> (r == Ok(references)
      && w.events == old(w.events) + [StartElement("Array")] + IntElements(v.xs) + [EndElement])
    ensures v.Vector? || v.Opaque? ==> r == Fail(NotSupported) && w.events == old(w.events)
    ensures v.Object? && v.conf in references ==> r == Ok(references) && w.events == old(w.events) + RefElement(v.conf)
    ensures Wrote(ValueXml(v, references), r, old(w.events), w.events)
  {
    if ScalarElement(v).Some? {
      w.events := w.events + [ScalarElement(v).value];
      r := Ok(references);
    } else if v.Nested? {
      var written, _ := WriteConfig(v.settings, w, references);
      r := written;
    } else if v.Object? {
      r := WriteConfigurable(v.conf, w, references);
    } else if v.Ints? {
      WriteIntArray(v.xs, w);
      r := Ok(references);
    } else if v.Array? {
      w.events := w.events + [StartElement("Array")];
      r := WriteItems(v, w, references);
      if r.Ok? {
        w.events := w.events + [EndElement];
      }
    } else {
      r := Fail(NotSupported);
    }
  }

  /** An int[] is an Array: an "Array" element holding one Int32 element per item. */
  method WriteIntArray(xs: seq<int>, w: XmlWriter)
    modifies w
    ensures w.events == old(w.events) + [StartElement("Array")] + IntElements(xs) + [EndElement]
  {
    w.events := w.events + [StartElement("Array")];
    ghost var start := w.events;
    for i := 0 to |xs|
      invariant w.events == start + IntElements(xs[..i])
    {
      assert xs[..i + 1][..i] == xs[..i];
      w.events := w.events + [ElementString("Int32", IntToString(xs[i]))];
    }
    assert xs[..|xs|] == xs;
    w.events := w.events + [EndElement];
  }

  /** The items of any other array, each written as a value element. */
  method WriteItems(v: Value, w: XmlWriter, references: set<Configurable>) returns (r: Outcome<set<Configurable>>)
    requires v.Array?
    modifies w
    decreases v, 1
    ensures r.Ok? ==> references <= r.value && old(w.events) <= w.events
    ensures Wrote(ItemsXml(v, 0, references), r, old(w.events), w.events)
  {
    var refs := references;
    ThenEmpty(ItemsXml(v, 0, references));
    for i := 0 to |v.items|
      invariant references <= refs && old(w.events) <= w.events
      invariant ItemsXml(v, 0, references) == Then(w.events[|old(w.events)|..], ItemsXml(v, i, refs))
    {
      ghost var before := w.events;
      var written := WriteValueElement(v.items[i], w, refs);
      if written.Fail? {
        return written;
      }
      ThenThen(before[|old(w.events)|..], w.events[|before|..], ItemsXml(v, i + 1, written.value));
      assert before[|old(w.events)|..] + w.events[|before|..] == w.events[|old(w.events)|..];
      refs := written.value;
    }
    r := Ok(refs);
  }

  /**
   * WriteConfigurable: an object already among the references becomes a
   * refid element; otherwise it joins the references and is written in full.
   */
  method WriteConfigurable(conf: Configurable, w: XmlWriter, references: set<Configurable>) returns (r: Outcome<set<Configurable>>)
    modifies w
    decreases conf, 2
    ensures r.Ok? ==> references <= r.value && old(w.events) <= w.events
    ensures conf in references ==> r == Ok(references) && w.events == old(w.events) + RefElement(conf)
    ensures conf !in references && r.Ok? ==> (conf in r.value && IdOf(conf.settings).Ok?
      && |w.events| >= |old(w.events)| + 3
      && w.events[|old(w.events)|] == StartElement(TypeName(conf.settings))
      && w.events[|old(w.events)| + 1] == Attribute("id", IntToString(IdOf(conf.settings).value)))
    ensures Wrote(ConfigurableXml(conf, references), r, old(w.events), w.events)
  {
    if conf in references {
      w.events := w.events + RefElement(conf);
      r := Ok(references);
    } else {
      var written, _ := WriteConfig(conf.settings, w, references + {conf});
      r := written;
    }
  }

  /** Writing the same object twice: in full the first time, as a refid element the second. */
  method WriteSharedTwice(conf: Configurable, w: XmlWriter, references: set<Configurable>)
    returns (r: Outcome<set<Configurable>>)
    requires conf !in references
    modifies w
    ensures r.Ok? ==> (conf in r.value
      && |w.events| >= |old(w.events)| + 6
      && w.events[|old(w.events)|] == StartElement(TypeName(conf.settings))
      && w.events[|w.events| - 3..] == RefElement(conf))
    ensures var full := ConfigXml(conf.settings, references + {conf});
      full.Fail? ==> r == Fail(full.error)
    ensures var full := ConfigXml(conf.settings, references + {conf});
      full.Ok? ==> r == Ok(full.value.references) && w.events == old(w.events) + full.value.events + RefElement(conf)
  {
    ghost var start := w.events;
    var first := WriteConfigurable(conf, w, references);
    if first.Fail? {
      return first;
    }
    ghost var mid := w.events;
    assert mid[|start|] == StartElement(TypeName(conf.settings));
    r := WriteConfigurable(conf, w, first.value);
    assert w.events == mid + RefElement(conf);
    assert w.events[|start|] == mid[|start|];
  }

  // ---------------------------------------------------------------------------
  // Reading

  datatype XAttribute = XAttribute(name: string, value: string)
  datatype XElement = XElement(name: string, attributes: seq<XAttribute>, children: seq<XElement>)

  /** The parameter types the reader distinguishes. */
  datatype ParamType =
    | StringType
    | IntType
    | IntArrayType
    /** float, bool, Vector3, Vector4, DateTime or an enum, parsed from text by the type itself */
    | ScalarType(typeName: string)
    | ConfigurableType
    | ArrayType(element: ParamType)
    /** any other type */
    | UnsupportedType(typeName: string)

  datatype Parameter = Parameter(name: string, paramType: ParamType)

  /** An argument read for a constructor parameter. */
  datatype Argument =
    | StringArg(s: string)
    | IntArg(i: int)
    | IntsArg(xs: seq<int>)
    | TextArg(typeName: string, text: string)
    | ObjectArg(obj: Loaded)
    | ArrayArg(items: seq<Argument>)

  /** An object read back: Configurable.Null, or the constructor of a type called with its arguments. */
  datatype Loaded = NullObject | Loaded(typeName: string, arguments: seq<Argument>)

  /** ReadValueString. */
  function ReadValueString(value: string, t: ParamType): (r: Outcome<Argument>)
    ensures t.StringType? ==> r == Ok(StringArg(value))
    ensures t.ConfigurableType? || t.ArrayType? || t.UnsupportedType? ==> r == Fail(NotSupported)
  {
    match t
    case StringType => Ok(StringArg(value))
    case IntType => var i :- ParseInt(value); Ok(IntArg(i))
    case IntArrayType => var xs :- ReadInts(value); Ok(IntsArg(xs))
    case ScalarType(typeName) => Ok(TextArg(typeName, value))
    case _ => Fail(NotSupported)
  }

  /**
   * A string, int or int[] value written as an attribute is read back as
   * the same value by a parameter of its own type.
   */
  lemma AttributeRoundTrip(v: Value)
    requires v.Str? || v.Int? || v.Ints?
    requires GoesInAttribute(v)
    ensures v.Str? ==> ReadValueString(AttributeString(v), StringType) == Ok(StringArg(v.s))
    ensures v.Int? ==> ReadValueString(AttributeString(v), IntType) == Ok(IntArg(v.i))
    ensures v.Ints? ==> ReadValueString(AttributeString(v), IntArrayType) == Ok(IntsArg(v.xs))
  {
    match v
    case Str(_) =>
    case Int(i) => ParseIntToString(i);
    case Ints(xs) => IntsRoundTrip(xs);
  }

  /** element.Attribute(name): the value of the attribute with that name. */
  function AttributeNamed(attributes: seq<XAttribute>, name: string): Option<string>
  {
    if attributes == [] then None
    else if attributes[0].name == name then Some(attributes[0].value)
    else AttributeNamed(attributes[1..], name)
  }

  /**
   * ParameterIndex, asked for one name: the position of the last parameter
   * with that name, or None when no parameter has it.
   */
  function Owner(parameters: seq<Parameter>, name: string): (r: Option<nat>)
    ensures r.Some? ==> r.value < |parameters| && parameters[r.value].name == name
    ensures r.Some? ==> forall j :: r.value < j < |parameters| ==> parameters[j].name != name
    ensures r.None? <==> forall i :: 0 <= i < |parameters| ==> parameters[i].name != name
  {
    if parameters == [] then None
    else if parameters[|parameters| - 1].name == name then Some(|parameters| - 1)
    else Owner(parameters[..|parameters| - 1], name)
  }

  /** Whether the i-th parameter is the one its name selects. */
  predicate Owns(parameters: seq<Parameter>, i: nat)
    requires i < |parameters|
  {
    var owner := Owner(parameters, parameters[i].name);
    owner.Some? && owner.value == i
  }

  /** The first attribute supplying name, skipping "id" and "refid". */
  function FirstAttribute(attributes: seq<XAttribute>, name: string): Option<string>
  {
    if attributes == [] then None
    else
      var earlier := FirstAttribute(attributes[..|attributes| - 1], name);
      var a := attributes[|attributes| - 1];
      if earlier.Some? then earlier
      else if a.name == name && name != "id" && name != "refid" then Some(a.value)
      else None
  }

  /** The first child element named name. */
  function FirstChild(children: seq<XElement>, name: string): Option<XElement>
  {
    if children == [] then None
    else
      var earlier := FirstChild(children[..|children| - 1], name);
      var c := children[|children| - 1];
      if earlier.Some? then earlier
      else if c.name == name then Some(c)
      else None
  }

  /** The i-th parameter receives an argument from the element. */
  predicate Supplied(element: XElement, parameters: seq<Parameter>, i: nat)
    requires i < |parameters|
  {
    Owns(parameters, i)
    && (FirstAttribute(element.attributes, parameters[i].name).Some?
        || FirstChild(element.children, parameters[i].name).Some?)
  }

  /** The names the error message lists: the parameters without an argument, in order. */
  function MissingNames(parameters: seq<Parameter>, hasArg: seq<bool>): (r: seq<string>)
    requires |hasArg| == |parameters|
  {
    if parameters == [] then []
    else
      var n := |parameters| - 1;
      MissingNames(parameters[..n], hasArg[..n]) + if hasArg[n] then [] else [parameters[n].name]
  }

  function CountTrue(s: seq<bool>): (n: nat)
    ensures n <= |s|
  {
    if s == [] then 0 else CountTrue(s[..|s| - 1]) + if s[|s| - 1] then 1 else 0
  }

  lemma CountTrueNone(s: seq<bool>)
    requires forall i :: 0 <= i < |s| ==> !s[i]
    ensures CountTrue(s) == 0
  {
    if s != [] {
      CountTrueNone(s[..|s| - 1]);
    }
  }

  /** Counting the supplied arguments decides whether every parameter got one. */
  lemma {:induction false} CountTrueAll(s: seq<bool>)
    ensures CountTrue(s) == |s| <==> forall i :: 0 <= i < |s| ==> s[i]
  {
    if s != [] {
      var init := s[..|s| - 1];
      CountTrueAll(init);
      assert forall i :: 0 <= i < |init| ==> init[i] == s[i];
    }
  }

  lemma {:induction false} CountTrueSet(s: seq<bool>, p: nat)
    requires p < |s| && !s[p]
    ensures CountTrue(s[p := true]) == CountTrue(s) + 1
  {
    var n := |s| - 1;
    if p < n {
      CountTrueSet(s[..n], p);
      assert s[p := true][..n] == s[..n][p := true];
    } else {
      assert s[p := true][..n] == s[..n];
    }
  }

  /** Every parameter without an argument is among the missing names. */
  lemma {:induction false} MissingNamesComplete(parameters: seq<Parameter>, hasArg: seq<bool>)
    requires |hasArg| == |parameters|
    ensures forall i :: 0 <= i < |parameters| && !hasArg[i] ==> parameters[i].name in MissingNames(parameters, hasArg)
  {
    if parameters != [] {
      var n := |parameters| - 1;
      MissingNamesComplete(parameters[..n], hasArg[..n]);
      var m := MissingNames(parameters, hasArg);
      var mi := MissingNames(parameters[..n], hasArg[..n]);
      assert m == mi + if hasArg[n] then [] else [parameters[n].name];
      forall i | 0 <= i < |parameters| && !hasArg[i]
        ensures parameters[i].name in m
      {
        if i < n {
          assert !hasArg[..n][i] && parameters[..n][i] == parameters[i];
          assert parameters[i].name in mi;
        }
      }
    }
  }

  /** Every missing name is the name of a parameter without an argument. */
  lemma {:induction false} MissingNamesSound(parameters: seq<Parameter>, hasArg: seq<bool>)
    requires |hasArg| == |parameters|
    ensures forall k :: 0 <= k < |MissingNames(parameters, hasArg)| ==>
      exists i :: 0 <= i < |parameters| && !hasArg[i] && parameters[i].name == MissingNames(parameters, hasArg)[k]
  {
    if parameters != [] {
      var n := |parameters| - 1;
      var ps, hs := parameters[..n], hasArg[..n];
      MissingNamesSound(ps, hs);
      var m := MissingNames(parameters, hasArg);
      var mi := MissingNames(ps, hs);
      assert m == mi + if hasArg[n] then [] else [parameters[n].name];
      forall k | 0 <= k < |m|
        ensures exists i :: 0 <= i < |parameters| && !hasArg[i] && parameters[i].name == m[k]
      {
        if k < |mi| {
          var i :| 0 <= i < |ps| && !hs[i] && ps[i].name == mi[k];
          assert !hasArg[i] && parameters[i].name == m[k];
        } else {
          assert !hasArg[n] && parameters[n].name == m[k];
        }
      }
    } else {
      assert MissingNames(parameters, hasArg) == [];
    }
  }

  /** The missing names are exactly the parameters without an argument, so none are listed iff all were supplied. */
  lemma MissingNamesMeaning(parameters: seq<Parameter>, hasArg: seq<bool>)
    requires |hasArg| == |parameters|
    ensures MissingNames(parameters, hasArg) == [] <==> forall i :: 0 <= i < |hasArg| ==> hasArg[i]
    ensures forall i :: 0 <= i < |parameters| && !hasArg[i] ==> parameters[i].name in MissingNames(parameters, hasArg)
    ensures forall k :: 0 <= k < |MissingNames(parameters, hasArg)| ==>
      exists i :: 0 <= i < |parameters| && !hasArg[i] && parameters[i].name == MissingNames(parameters, hasArg)[k]
  {
    MissingNamesComplete(parameters, hasArg);
    MissingNamesSound(parameters, hasArg);
    if MissingNames(parameters, hasArg) != [] {
      assert 0 < |MissingNames(parameters, hasArg)|;
    }
  }

  function MissingMessage(typeName: string, missing: seq<string>): string
  {
    typeName + " config is missing parameters: " + Join(", ", missing)
  }

  /**
   * What a successful ReadValueElement of an element as type t can give:
   * for a Configurable, an object, which is one of the element's own type
   * unless the element is a refid back-reference; for an array, one item
   * per child element, each read with the element type; for an int[], the
   * empty array of an element without children.  No other type is read
   * from an element.
   */
  predicate ReadsAs(element: XElement, t: ParamType, a: Argument)
    decreases element
  {
    match t
    case ConfigurableType =>
      a.ObjectArg? && (AttributeNamed(element.attributes, "refid").None? ==>
        a.obj.Loaded? && a.obj.typeName == element.name)
    case ArrayType(et) =>
      a.ArrayArg? && |a.items| == |element.children|
      && forall k :: 0 <= k < |element.children| ==> ReadsAs(element.children[k], et, a.items[k])
    case IntArrayType => element.children == [] && a == IntsArg([])
    case _ => false
  }

  /**
   * What the two passes of ConfigurableReader.Read have gathered from the
   * given attributes and children: a parameter has an argument iff its
   * name selects it and an attribute or child supplies that name; an
   * argument taken from an attribute is the first such attribute's text,
   * parsed, and one taken from a child element (no attribute supplying it)
   * is what the first such child's first element reads as.
   */
  predicate Gathered(parameters: seq<Parameter>, attributes: seq<XAttribute>, children: seq<XElement>,
                     arguments: seq<Option<Argument>>, hasArg: seq<bool>)
    requires |arguments| == |hasArg| == |parameters|
  {
    forall p :: 0 <= p < |parameters| ==>
      (hasArg[p] <==> (Owns(parameters, p)
        && (FirstAttribute(attributes, parameters[p].name).Some? || FirstChild(children, parameters[p].name).Some?)))
      && (arguments[p].Some? <==> hasArg[p])
      && (hasArg[p] && FirstAttribute(attributes, parameters[p].name).Some? ==>
        ReadValueString(FirstAttribute(attributes, parameters[p].name).value, parameters[p].paramType)
          == Ok(arguments[p].value))
      && (hasArg[p] && FirstAttribute(attributes, parameters[p].name).None? ==>
        ChildReadsAs(FirstChild(children, parameters[p].name).value, parameters[p].paramType, arguments[p].value))
  }

  /** A child element that supplies an argument: it has an element, and the first one reads as the argument. */
  predicate ChildReadsAs(c: XElement, t: ParamType, a: Argument)
  {
    c.children != [] && ReadsAs(c.children[0], t, a)
  }

  lemma FirstChildSnoc(children: seq<XElement>, c: XElement, name: string)
    ensures FirstChild(children + [c], name) == if FirstChild(children, name).Some? then FirstChild(children, name)
      else if c.name == name then Some(c) else None
  {
    assert (children + [c])[..|children|] == children;
  }

  /** A child element that supplies a parameter still without an argument. */
  lemma GatheredChild(parameters: seq<Parameter>, attributes: seq<XAttribute>, children: seq<XElement>, c: XElement,
                      arguments: seq<Option<Argument>>, hasArg: seq<bool>, p: nat, value: Argument)
    requires |arguments| == |hasArg| == |parameters|
    requires Gathered(parameters, attributes, children, arguments, hasArg)
    requires p < |parameters| && parameters[p].name == c.name && Owns(parameters, p) && arguments[p].None?
    requires ChildReadsAs(c, parameters[p].paramType, value)
    ensures Gathered(parameters, attributes, children + [c], arguments[p := Some(value)], hasArg[p := true])
  {
    forall q | 0 <= q < |parameters|
      ensures FirstChild(children + [c], parameters[q].name) == if FirstChild(children, parameters[q].name).Some?
        then FirstChild(children, parameters[q].name) else if c.name == parameters[q].name then Some(c) else None
    {
      FirstChildSnoc(children, c, parameters[q].name);
    }
  }

  /** A child element whose name selects no parameter, or one that already has its argument. */
  lemma GatheredChildSkipped(parameters: seq<Parameter>, attributes: seq<XAttribute>, children: seq<XElement>, c: XElement,
                             arguments: seq<Option<Argument>>, hasArg: seq<bool>)
    requires |arguments| == |hasArg| == |parameters|
    requires Gathered(parameters, attributes, children, arguments, hasArg)
    requires !(Owner(parameters, c.name).Some? && arguments[Owner(parameters, c.name).value].None?)
    ensures Gathered(parameters, attributes, children + [c], arguments, hasArg)
  {
    forall q | 0 <= q < |parameters|
      ensures FirstChild(children + [c], parameters[q].name) == if FirstChild(children, parameters[q].name).Some?
        then FirstChild(children, parameters[q].name) else if c.name == parameters[q].name then Some(c) else None
    {
      FirstChildSnoc(children, c, parameters[q].name);
    }
  }

  lemma FirstAttributeSnoc(attributes: seq<XAttribute>, a: XAttribute, name: string)
    ensures FirstAttribute(attributes + [a], name) == if FirstAttribute(attributes, name).Some? then FirstAttribute(attributes, name)
      else if a.name == name && name != "id" && name != "refid" then Some(a.value) else None
  {
    assert (attributes + [a])[..|attributes|] == attributes;
  }

  /** An attribute that supplies a parameter still without an argument. */
  lemma GatheredAttribute(parameters: seq<Parameter>, attributes: seq<XAttribute>, a: XAttribute,
                          arguments: seq<Option<Argument>>, hasArg: seq<bool>, p: nat, value: Argument)
    requires |arguments| == |hasArg| == |parameters|
    requires Gathered(parameters, attributes, [], arguments, hasArg)
    requires a.name != "id" && a.name != "refid"
    requires p < |parameters| && parameters[p].name == a.name && Owns(parameters, p) && arguments[p].None?
    requires ReadValueString(a.value, parameters[p].paramType) == Ok(value)
    ensures Gathered(parameters, attributes + [a], [], arguments[p := Some(value)], hasArg[p := true])
  {
    var attributes', arguments', hasArg' := attributes + [a], arguments[p := Some(value)], hasArg[p := true];
    forall q | 0 <= q < |parameters|
      ensures (hasArg'[q] <==> (Owns(parameters, q)
          && (FirstAttribute(attributes', parameters[q].name).Some? || FirstChild([], parameters[q].name).Some?)))
        && (arguments'[q].Some? <==> hasArg'[q])
        && (hasArg'[q] && FirstAttribute(attributes', parameters[q].name).Some? ==>
          ReadValueString(FirstAttribute(attributes', parameters[q].name).value, parameters[q].paramType)
            == Ok(arguments'[q].value))
    {
      FirstAttributeSnoc(attributes, a, parameters[q].name);
      assert FirstChild([], parameters[q].name) == None;
      if q == p {
        assert FirstAttribute(attributes, a.name) == None;
        assert FirstAttribute(attributes', parameters[q].name) == Some(a.value);
      } else {
        assert hasArg'[q] == hasArg[q] && arguments'[q] == arguments[q];
        if a.name == parameters[q].name {
          assert !Owns(parameters, q);
        }
      }
    }
  }

  /** An attribute whose name is reserved, selects no parameter, or selects one that already has its argument. */
  lemma GatheredAttributeSkipped(parameters: seq<Parameter>, attributes: seq<XAttribute>, a: XAttribute,
                                 arguments: seq<Option<Argument>>, hasArg: seq<bool>)
    requires |arguments| == |hasArg| == |parameters|
    requires Gathered(parameters, attributes, [], arguments, hasArg)
    requires !(a.name != "id" && a.name != "refid" && Owner(parameters, a.name).Some?
      && arguments[Owner(parameters, a.name).value].None?)
    ensures Gathered(parameters, attributes + [a], [], arguments, hasArg)
  {
    forall q | 0 <= q < |parameters|
      ensures FirstAttribute(attributes + [a], parameters[q].name) == if FirstAttribute(attributes, parameters[q].name).Some?
        then FirstAttribute(attributes, parameters[q].name)
        else if a.name == parameters[q].name && parameters[q].name != "id" && parameters[q].name != "refid" then Some(a.value) else None
    {
      FirstAttributeSnoc(attributes, a, parameters[q].name);
    }
  }

  /** The first loop of ConfigurableReader.Read: each attribute supplies the parameter its name selects, if still unsupplied. */
  method ReadAttributes(parameters: seq<Parameter>, attributes: seq<XAttribute>,
                        arguments: array<Option<Argument>>, hasArg: array<bool>)
    returns (r: Outcome<nat>)
    requires arguments.Length == hasArg.Length == |parameters|
    requires forall p :: 0 <= p < |parameters| ==> !hasArg[p] && arguments[p].None?
    modifies arguments, hasArg
    ensures r.Ok? ==> (r.value == CountTrue(hasArg[..])
      && Gathered(parameters, attributes, [], arguments[..], hasArg[..]))
  {
    var count := 0;
    CountTrueNone(hasArg[..]);
    for i := 0 to |attributes|
      invariant count == CountTrue(hasArg[..])
      invariant Gathered(parameters, attributes[..i], [], arguments[..], hasArg[..])
    {
      var a := attributes[i];
      assert attributes[..i + 1] == attributes[..i] + [a];
      var owner := Owner(parameters, a.name);
      if a.name != "id" && a.name != "refid" && owner.Some? && arguments[owner.value].None? {
        var p := owner.value;
        var value := ReadValueString(a.value, parameters[p].paramType);
        if value.Fail? {
          return Fail(value.error);
        }
        CountTrueSet(hasArg[..], p);
        GatheredAttribute(parameters, attributes[..i], a, arguments[..], hasArg[..], p, value.value);
        arguments[p] := Some(value.value);
        hasArg[p] := true;
        count := count + 1;
      } else {
        GatheredAttributeSkipped(parameters, attributes[..i], a, arguments[..], hasArg[..]);
      }
    }
    assert attributes[..|attributes|] == attributes;
    return Ok(count);
  }

  /**
   * The reading context: the reader (parameter list) per type name and the
   * table of objects read so far, by id.
   */
  class ConfigReader {
    const readers: map<string, seq<Parameter>>
    var references: map<int, Loaded>

    constructor (readers: map<string, seq<Parameter>>)
      ensures this.readers == readers && references == map[]
    {
      this.readers := readers;
      references := map[];
    }

    /**
     * ReadConfigurable: a refid element resolves to the object already read
     * under that id, or fails naming the missing definition; any other
     * element is read by the reader of its type and recorded under its id,
     * with Configurable.Null recorded while it is being read.
     */
    method ReadConfigurable(element: XElement) returns (r: Outcome<Loaded>)
      modifies this
      decreases element, 3
      ensures var refid := AttributeNamed(element.attributes, "refid");
        refid.Some? ==> (references == old(references)
          && (ParseInt(refid.value).Fail? ==> r == Fail(Format))
          && (ParseInt(refid.value).Ok? && ParseInt(refid.value).value in old(references)
              ==> r == Ok(old(references)[ParseInt(refid.value).value]))
          && (ParseInt(refid.value).Ok? && ParseInt(refid.value).value !in old(references)
              ==> r == Fail(Error("Missing definition of " + element.name + " with refid=" + refid.value))))
      ensures AttributeNamed(element.attributes, "refid").None? && AttributeNamed(element.attributes, "id").None?
        ==> r == Fail(NullReference)
      ensures AttributeNamed(element.attributes, "refid").None? && r.Ok?
        ==> (var id := ParseInt(AttributeNamed(element.attributes, "id").value);
          id.Ok? && id.value in references && references[id.value] == r.value
          && element.name in readers && r.value.Loaded? && r.value.typeName == element.name)
      ensures AttributeNamed(element.attributes, "refid").None? && element.name !in readers
        ==> r.Fail?
    {
      var refid := AttributeNamed(element.attributes, "refid");
      if refid.Some? {
        var id :- ParseInt(refid.value);
        if id in references {
          return Ok(references[id]);
        }
        return Fail(Error("Missing definition of " + element.name + " with refid=" + refid.value));
      }
      var idText := AttributeNamed(element.attributes, "id");
      if idText.None? {
        return Fail(NullReference);
      }
      var id :- ParseInt(idText.value);
      references := references[id := NullObject];
      if element.name !in readers {
        return Fail(NotSupported);
      }
      var c, _ := Read(readers[element.name], element.name, element);
      if c.Fail? {
        return c;
      }
      references := references[id := c.value];
      return c;
    }

    /**
     * ConfigurableReader.Read: each parameter takes the first attribute
     * (other than "id" and "refid") with its name, else the first child
     * element with its name; unless every parameter got an argument it
     * fails listing the ones that did not. gathered says the two passes
     * over the attributes and children completed without a failure.
     */
    method Read(parameters: seq<Parameter>, typeName: string, element: XElement)
      returns (r: Outcome<Loaded>, ghost gathered: bool)
      modifies this
      decreases element, 2
      ensures !gathered ==> r.Fail?
      ensures gathered ==> (r.Ok? <==> forall i :: 0 <= i < |parameters| ==> Supplied(element, parameters, i))
      ensures gathered && r.Fail? ==> exists hasArg: seq<bool> ::
        (|hasArg| == |parameters|
        && (forall i :: 0 <= i < |parameters| ==> hasArg[i] == Supplied(element, parameters, i))
        && r.error == Error(MissingMessage(typeName, MissingNames(parameters, hasArg))))
      ensures r.Ok? ==> (r.value.Loaded? && r.value.typeName == typeName
        && |r.value.arguments| == |parameters|
        && forall i :: (0 <= i < |parameters| && Owns(parameters, i)
          && FirstAttribute(element.attributes, parameters[i].name).Some?) ==>
          ReadValueString(FirstAttribute(element.attributes, parameters[i].name).value, parameters[i].paramType)
            == Ok(r.value.arguments[i]))
      ensures r.Ok? ==> forall i :: (0 <= i < |parameters| && Owns(parameters, i)
          && FirstAttribute(element.attributes, parameters[i].name).None?) ==>
          FirstChild(element.children, parameters[i].name).Some?
          && ChildReadsAs(FirstChild(element.children, parameters[i].name).value, parameters[i].paramType, r.value.arguments[i])
    {
      gathered := false;
      var n := |parameters|;
      var arguments := new Option<Argument>[n](_ => None);
      var hasArg := new bool[n](_ => false);
      CountTrueNone(hasArg[..]);
      var numArgs := ReadAttributes(parameters, element.attributes, arguments, hasArg);
      if numArgs.Fail? {
        return Fail(numArgs.error), gathered;
      }
      numArgs := ReadChildren(parameters, element, arguments, hasArg, numArgs.value);
      if numArgs.Fail? {
        return Fail(numArgs.error), gathered;
      }
      gathered := true;
      r := Conclude(parameters, typeName, element, arguments, hasArg, numArgs.value);
    }

    /** The end of Read: the constructor call when every parameter has its argument, else the error listing the missing ones. */
    static method Conclude(parameters: seq<Parameter>, typeName: string, element: XElement,
                           arguments: array<Option<Argument>>, hasArg: array<bool>, numArgs: nat)
      returns (r: Outcome<Loaded>)
      requires arguments.Length == hasArg.Length == |parameters|
      requires Gathered(parameters, element.attributes, element.children, arguments[..], hasArg[..])
      requires numArgs == CountTrue(hasArg[..])
      ensures r.Ok? <==> forall i :: 0 <= i < |parameters| ==> Supplied(element, parameters, i)
      ensures r.Fail? ==> exists hasArg: seq<bool> ::
        (|hasArg| == |parameters|
        && (forall i :: 0 <= i < |parameters| ==> hasArg[i] == Supplied(element, parameters, i))
        && r.error == Error(MissingMessage(typeName, MissingNames(parameters, hasArg))))
      ensures r.Ok? ==> (r.value.Loaded? && r.value.typeName == typeName
        && |r.value.arguments| == |parameters|
        && forall i :: (0 <= i < |parameters| && Owns(parameters, i)
          && FirstAttribute(element.attributes, parameters[i].name).Some?) ==>
          ReadValueString(FirstAttribute(element.attributes, parameters[i].name).value, parameters[i].paramType)
            == Ok(r.value.arguments[i]))
      ensures r.Ok? ==> forall i :: (0 <= i < |parameters| && Owns(parameters, i)
          && FirstAttribute(element.attributes, parameters[i].name).None?) ==>
          FirstChild(element.children, parameters[i].name).Some?
          && ChildReadsAs(FirstChild(element.children, parameters[i].name).value, parameters[i].paramType, r.value.arguments[i])
    {
      var n := |parameters|;
      CountTrueAll(hasArg[..]);
      assert forall i :: 0 <= i < n ==> hasArg[..][i] == Supplied(element, parameters, i);
      if numArgs != n {
        var missing := MissingNames(parameters, hasArg[..]);
        return Fail(Error(MissingMessage(typeName, missing)));
      }
      var args := seq(n, i requires 0 <= i < n reads arguments => if arguments[i].Some? then arguments[i].value else StringArg(""));
      return Ok(Loaded(typeName, args));
    }

    /** The second loop of Read: each child element supplies the parameter its name selects, if still unsupplied. */
    method ReadChildren(parameters: seq<Parameter>, element: XElement,
                        arguments: array<Option<Argument>>, hasArg: array<bool>, numArgs: nat)
      returns (r: Outcome<nat>)
      requires arguments.Length == hasArg.Length == |parameters|
      requires Gathered(parameters, element.attributes, [], arguments[..], hasArg[..])
      requires numArgs == CountTrue(hasArg[..])
      modifies this, arguments, hasArg
      decreases element, 1
      ensures r.Ok? ==> (r.value == CountTrue(hasArg[..])
        && Gathered(parameters, element.attributes, element.children, arguments[..], hasArg[..]))
    {
      var count := numArgs;
      for j := 0 to |element.children|
        invariant count == CountTrue(hasArg[..])
        invariant Gathered(parameters, element.attributes, element.children[..j], arguments[..], hasArg[..])
      {
        var next := ReadChild(parameters, element, j, arguments, hasArg, count);
        if next.Fail? {
          return next;
        }
        count := next.value;
      }
      assert element.children[..|element.children|] == element.children;
      return Ok(count);
    }

    /** One step of the second loop of Read, for the j-th child element. */
    method ReadChild(parameters: seq<Parameter>, element: XElement, j: nat,
                     arguments: array<Option<Argument>>, hasArg: array<bool>, numArgs: nat)
      returns (r: Outcome<nat>)
      requires j < |element.children|
      requires arguments.Length == hasArg.Length == |parameters|
      requires Gathered(parameters, element.attributes, element.children[..j], arguments[..], hasArg[..])
      requires numArgs == CountTrue(hasArg[..])
      modifies this, arguments, hasArg
      decreases element, 0
      ensures r.Ok? ==> (r.value == CountTrue(hasArg[..])
        && Gathered(parameters, element.attributes, element.children[..j + 1], arguments[..], hasArg[..]))
      ensures var c := element.children[j]; var owner := Owner(parameters, c.name);
        owner.Some? && old(arguments[owner.value]).None? ==>
          (c.children == [] ==> r == Fail(InvalidOperation("Sequence contains no elements")))
          && (r.Ok? ==> (r.value == numArgs + 1 && arguments[..] == old(arguments[..])[owner.value := arguments[owner.value]]
            && arguments[owner.value].Some? && ReadsAs(c.children[0], parameters[owner.value].paramType, arguments[owner.value].value)))
      ensures var c := element.children[j]; var owner := Owner(parameters, c.name);
        !(owner.Some? && old(arguments[owner.value]).None?) ==>
          r == Ok(numArgs) && arguments[..] == old(arguments[..]) && hasArg[..] == old(hasArg[..])
    {
      var c := element.children[j];
      assert element.children[..j + 1] == element.children[..j] + [c];
      var owner := Owner(parameters, c.name);
      if owner.Some? && arguments[owner.value].None? {
        var p := owner.value;
        if c.children == [] {
          return Fail(InvalidOperation("Sequence contains no elements"));
        }
        ghost var args0, has0 := arguments[..], hasArg[..];
        var value := ReadValueElement(c.children[0], parameters[p].paramType);
        if value.Fail? {
          return Fail(value.error);
        }
        CountTrueSet(has0, p);
        GatheredChild(parameters, element.attributes, element.children[..j], c, args0, has0, p, value.value);
        arguments[p] := Some(value.value);
        hasArg[p] := true;
        assert arguments[..] == args0[p := Some(value.value)] && hasArg[..] == has0[p := true];
        return Ok(numArgs + 1);
      } else {
        GatheredChildSkipped(parameters, element.attributes, element.children[..j], c, arguments[..], hasArg[..]);
        return Ok(numArgs);
      }
    }

    /**
     * ReadValueElement: a Configurable parameter reads the element as an
     * object, an array parameter reads each child with the element type;
     * any other type cannot be read from an element.
     */
    method ReadValueElement(element: XElement, t: ParamType) returns (r: Outcome<Argument>)
      modifies this
      decreases element, 4
      ensures !(t.ConfigurableType? || t.ArrayType? || t.IntArrayType?) ==> r == Fail(NotSupported)
      ensures r.Ok? ==> ReadsAs(element, t, r.value)
      ensures t.IntArrayType? ==> r == if element.children == [] then Ok(IntsArg([])) else Fail(NotSupported)
      ensures t.ConfigurableType? ==> var refid := AttributeNamed(element.attributes, "refid");
        refid.Some? ==> (references == old(references)
          && (ParseInt(refid.value).Fail? ==> r == Fail(Format))
          && (ParseInt(refid.value).Ok? && ParseInt(refid.value).value in old(references)
              ==> r == Ok(ObjectArg(old(references)[ParseInt(refid.value).value])))
          && (ParseInt(refid.value).Ok? && ParseInt(refid.value).value !in old(references)
              ==> r == Fail(Error("Missing definition of " + element.name + " with refid=" + refid.value))))
      ensures (t.ConfigurableType? && AttributeNamed(element.attributes, "refid").None?
        && AttributeNamed(element.attributes, "id").None?) ==> r == Fail(NullReference)
      ensures t.ConfigurableType? && AttributeNamed(element.attributes, "refid").None? && r.Ok? ==>
        (var id := ParseInt(AttributeNamed(element.attributes, "id").value);
          id.Ok? && id.value in references && ObjectArg(references[id.value]) == r.value)
    {
      match t {
        case ConfigurableType =>
          var obj :- ReadConfigurable(element);
          return Ok(ObjectArg(obj));
        case ArrayType(et) =>
          var items: seq<Argument> := [];
          for k := 0 to |element.children|
            invariant |items| == k
            invariant forall i :: 0 <= i < k ==> ReadsAs(element.children[i], et, items[i])
          {
            var item := ReadValueElement(element.children[k], et);
            if item.Fail? {
              return item;
            }
            items := items + [item.value];
          }
          return Ok(ArrayArg(items));
        case IntArrayType =>
          if element.children == [] {
            return Ok(IntsArg([]));
          }
          return Fail(NotSupported);
        case _ =>
          return Fail(NotSupported);
      }
    }
  }
}
