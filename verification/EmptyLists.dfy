/** Replacing nil lists by empty ones anywhere in a response, going by the type of
  * each part (backend/internal/api/emptylists.go). */
module EmptyLists {

  /** Go's types, as far as the rewriting tells them apart. Types here are finite: a
    * type that contains itself is not described. */
  datatype Type =
    | Byte
    | Plain                                // any other number, string, bool, ...
    | Slice(elem: Type)
    | Pointer(elem: Type)
    | Map(elem: Type)                      // the type of its values
    | Interface
    | Struct(fields: seq<FieldType>)
    | Array(elem: Type)

  datatype FieldType = FieldType(exported: bool, t: Type)

  datatype Value =
    | Scalar(x: int)
    | NilSlice | List(items: seq<Value>)
    | NilPointer | To(target: Value)
    | NilMap | Entries(entries: seq<Entry>)
    | NilInterface | Holding(dynamic: Type, held: Value)
    | Fields(values: seq<Value>)
    | Elements(elements: seq<Value>)

  datatype Entry = Entry(key: int, value: Value)

  ghost predicate HasType(v: Value, t: Type)
    decreases v
  {
    match t
    case Byte => v.Scalar?
    case Plain => v.Scalar?
    case Slice(elem) => v.NilSlice? || (v.List? && forall i :: 0 <= i < |v.items| ==> HasType(v.items[i], elem))
    case Pointer(elem) => v.NilPointer? || (v.To? && HasType(v.target, elem))
    case Map(elem) =>
      v.NilMap? || (v.Entries? && forall i :: 0 <= i < |v.entries| ==> HasType(v.entries[i].value, elem))
    case Interface => v.NilInterface? || (v.Holding? && !v.dynamic.Interface? && HasType(v.held, v.dynamic))
    case Struct(fields) =>
      v.Fields? && |v.values| == |fields| && forall i :: 0 <= i < |fields| ==> HasType(v.values[i], fields[i].t)
    case Array(elem) => v.Elements? && forall i :: 0 <= i < |v.elements| ==> HasType(v.elements[i], elem)
  }

  // ---- which types need looking at -------------------------------------------

  predicate NeedsFix(t: Type) {
    match t
    case Slice(_) => true
    case Pointer(elem) => NeedsFix(elem)
    case Map(elem) => NeedsFix(elem)
    case Interface => true
    case Struct(fields) => exists i :: 0 <= i < |fields| && fields[i].exported && NeedsFix(fields[i].t)
    case _ => false
  }

  // ---- the rewriting ---------------------------------------------------------

  function FixNil(v: Value, t: Type): Value
    requires HasType(v, t)
    decreases v, 0
  {
    match t
    case Slice(elem) =>
      if v.NilSlice? then (if elem.Byte? then v else List([]))
      else if !NeedsFix(elem) then v
      else List(seq(|v.items|, i requires 0 <= i < |v.items| => FixNil(v.items[i], elem)))
    case Pointer(elem) => if v.NilPointer? then v else To(FixNil(v.target, elem))
    case Interface => if v.NilInterface? then v else Holding(v.dynamic, FixNil(v.held, v.dynamic))
    case Map(elem) =>
      if v.NilMap? || !NeedsFix(elem) then v
      else Entries(seq(|v.entries|, i requires 0 <= i < |v.entries| =>
                         Entry(v.entries[i].key, FixNil(v.entries[i].value, elem))))
    case Struct(fields) =>
      Fields(seq(|fields|, i requires 0 <= i < |fields| => FixField(v.values[i], fields[i])))
    case _ => v
  }

  function FixField(v: Value, f: FieldType): Value
    requires HasType(v, f.t)
    decreases v, 1
  {
    if f.exported && NeedsFix(f.t) then FixNil(v, f.t) else v
  }

  // ---- what is asked of the result -------------------------------------------

  /** No nil list where the encoder would see one, byte slices apart, outside arrays:
    * the rewriting leaves these as they are. NoNilAnywhere looks into them too. */
  ghost predicate NoNil(v: Value, t: Type)
    requires HasType(v, t)
    decreases v
  {
    match t
    case Slice(elem) => if v.NilSlice? then elem.Byte? else forall i :: 0 <= i < |v.items| ==> NoNil(v.items[i], elem)
    case Pointer(elem) => v.NilPointer? || NoNil(v.target, elem)
    case Interface => v.NilInterface? || NoNil(v.held, v.dynamic)
    case Map(elem) => v.NilMap? || forall i :: 0 <= i < |v.entries| ==> NoNil(v.entries[i].value, elem)
    case Struct(fields) => forall i :: 0 <= i < |fields| && fields[i].exported ==> NoNil(v.values[i], fields[i].t)
    case _ => true
  }

  /** The same value, but that a nil list may have become an empty one. */
  ghost predicate Alike(v: Value, w: Value, t: Type)
    requires HasType(v, t) && HasType(w, t)
    decreases v
  {
    match t
    case Slice(elem) =>
      if v.NilSlice? then w.NilSlice? || (w == List([]) && !elem.Byte?)
      else w.List? && |w.items| == |v.items| && forall i :: 0 <= i < |v.items| ==> Alike(v.items[i], w.items[i], elem)
    case Pointer(elem) => if v.NilPointer? then w == v else w.To? && Alike(v.target, w.target, elem)
    case Interface =>
      if v.NilInterface? then w == v else w.Holding? && w.dynamic == v.dynamic && Alike(v.held, w.held, v.dynamic)
    case Map(elem) =>
      if v.NilMap? then w == v
      else w.Entries? && |w.entries| == |v.entries|
           && forall i :: 0 <= i < |v.entries|
               ==> w.entries[i].key == v.entries[i].key && Alike(v.entries[i].value, w.entries[i].value, elem)
    case Struct(fields) =>
      forall i :: 0 <= i < |fields| ==> if fields[i].exported then Alike(v.values[i], w.values[i], fields[i].t)
        else w.values[i] == v.values[i]
    case _ => w == v
  }

  // ---- a type that needs no fix ----------------------------------------------

  /** What justifies every skip: such a type holds no nil list. */
  lemma {:induction false} NoFixNoNil(v: Value, t: Type)
    requires HasType(v, t) && !NeedsFix(t)
    ensures NoNil(v, t)
    decreases v
  {
    match t {
      case Pointer(elem) =>
        if v.To? {
          NoFixNoNil(v.target, elem);
        }
      case Map(elem) =>
        if v.Entries? {
          forall i | 0 <= i < |v.entries| ensures NoNil(v.entries[i].value, elem) {
            NoFixNoNil(v.entries[i].value, elem);
          }
        }
      case Struct(fields) =>
        forall i | 0 <= i < |fields| && fields[i].exported ensures NoNil(v.values[i], fields[i].t) {
          NoFixNoNil(v.values[i], fields[i].t);
        }
      case _ =>
    }
  }

  // ---- the result ------------------------------------------------------------

  lemma {:induction false} AlikeSelf(v: Value, t: Type)
    requires HasType(v, t)
    ensures Alike(v, v, t)
    decreases v
  {
    match t {
      case Slice(elem) =>
        if v.List? {
          forall i | 0 <= i < |v.items| ensures Alike(v.items[i], v.items[i], elem) {
            AlikeSelf(v.items[i], elem);
          }
        }
      case Pointer(elem) =>
        if v.To? {
          AlikeSelf(v.target, elem);
        }
      case Interface =>
        if v.Holding? {
          AlikeSelf(v.held, v.dynamic);
        }
      case Map(elem) =>
        if v.Entries? {
          forall i | 0 <= i < |v.entries| ensures Alike(v.entries[i].value, v.entries[i].value, elem) {
            AlikeSelf(v.entries[i].value, elem);
          }
        }
      case Struct(fields) =>
        forall i | 0 <= i < |fields| ensures Alike(v.values[i], v.values[i], fields[i].t) {
          AlikeSelf(v.values[i], fields[i].t);
        }
      case _ =>
    }
  }

  /** The result has the same type, no nil list, and is otherwise the same value. */
  lemma {:induction false} Fixed(v: Value, t: Type)
    requires HasType(v, t)
    ensures HasType(FixNil(v, t), t)
    ensures NoNil(FixNil(v, t), t)
    ensures Alike(v, FixNil(v, t), t)
    decreases v
  {
    var w := FixNil(v, t);
    match t {
      case Slice(elem) =>
        if v.List? {
          FixedItems(v, elem);
        }
      case Pointer(elem) =>
        if v.To? {
          Fixed(v.target, elem);
        }
      case Interface =>
        if v.Holding? {
          Fixed(v.held, v.dynamic);
        }
      case Map(elem) =>
        if v.Entries? {
          FixedEntries(v, elem);
        }
      case Struct(fields) => FixedFields(v, fields);
      case _ =>
    }
  }

  lemma {:induction false} FixedItems(v: Value, elem: Type)
    requires v.List? && HasType(v, Slice(elem))
    ensures (var w := FixNil(v, Slice(elem)); HasType(w, Slice(elem)) && NoNil(w, Slice(elem))
                                              && Alike(v, w, Slice(elem)))
    decreases v, 0
  {
    var w := FixNil(v, Slice(elem));
    if NeedsFix(elem) {
      forall i | 0 <= i < |v.items|
        ensures w.items[i] == FixNil(v.items[i], elem) && HasType(w.items[i], elem)
        ensures NoNil(w.items[i], elem) && Alike(v.items[i], w.items[i], elem)
      {
        Fixed(v.items[i], elem);
      }
    } else {
      forall i | 0 <= i < |v.items| ensures NoNil(v.items[i], elem) && Alike(v.items[i], v.items[i], elem) {
        NoFixNoNil(v.items[i], elem);
        AlikeSelf(v.items[i], elem);
      }
    }
  }

  lemma {:induction false} FixedEntries(v: Value, elem: Type)
    requires v.Entries? && HasType(v, Map(elem))
    ensures (var w := FixNil(v, Map(elem)); HasType(w, Map(elem)) && NoNil(w, Map(elem)) && Alike(v, w, Map(elem)))
    decreases v, 0
  {
    var w := FixNil(v, Map(elem));
    if NeedsFix(elem) {
      forall i | 0 <= i < |v.entries|
        ensures w.entries[i] == Entry(v.entries[i].key, FixNil(v.entries[i].value, elem))
                && HasType(w.entries[i].value, elem)
        ensures NoNil(w.entries[i].value, elem) && Alike(v.entries[i].value, w.entries[i].value, elem)
      {
        Fixed(v.entries[i].value, elem);
      }
    } else {
      forall i | 0 <= i < |v.entries|
        ensures NoNil(v.entries[i].value, elem) && Alike(v.entries[i].value, v.entries[i].value, elem)
      {
        NoFixNoNil(v.entries[i].value, elem);
        AlikeSelf(v.entries[i].value, elem);
      }
    }
  }

  lemma {:induction false} FixedFields(v: Value, fields: seq<FieldType>)
    requires v.Fields? && HasType(v, Struct(fields))
    ensures (var w := FixNil(v, Struct(fields)); HasType(w, Struct(fields)) && NoNil(w, Struct(fields))
                                                 && Alike(v, w, Struct(fields)))
    decreases v, 0
  {
    var w := FixNil(v, Struct(fields));
    forall i | 0 <= i < |fields|
      ensures w.values[i] == FixField(v.values[i], fields[i]) && HasType(w.values[i], fields[i].t)
      ensures fields[i].exported ==> NoNil(w.values[i], fields[i].t) && Alike(v.values[i], w.values[i], fields[i].t)
    {
      if fields[i].exported && NeedsFix(fields[i].t) {
        Fixed(v.values[i], fields[i].t);
      } else if fields[i].exported {
        NoFixNoNil(v.values[i], fields[i].t);
        AlikeSelf(v.values[i], fields[i].t);
      }
    }
  }

  /** Those three say all there is to say: any such value is the result. */
  lemma {:induction false} OnlyFixed(v: Value, w: Value, t: Type)
    requires HasType(v, t) && HasType(w, t) && Alike(v, w, t) && NoNil(w, t)
    ensures w == FixNil(v, t)
    decreases v
  {
    match t {
      case Slice(elem) =>
        if v.List? {
          OnlyFixedItems(v, w, elem);
        }
      case Pointer(elem) =>
        if v.To? {
          OnlyFixed(v.target, w.target, elem);
        }
      case Interface =>
        if v.Holding? {
          OnlyFixed(v.held, w.held, v.dynamic);
        }
      case Map(elem) =>
        if v.Entries? {
          OnlyFixedEntries(v, w, elem);
        }
      case Struct(fields) =>
        forall i | 0 <= i < |fields| ensures w.values[i] == FixField(v.values[i], fields[i]) {
          if fields[i].exported {
            OnlyFixed(v.values[i], w.values[i], fields[i].t);
            SkipIsIdentity(v.values[i], fields[i].t);
          }
        }
        assert w.values == FixNil(v, t).values;
      case _ =>
    }
  }

  lemma {:induction false} OnlyFixedItems(v: Value, w: Value, elem: Type)
    requires v.List? && HasType(v, Slice(elem)) && HasType(w, Slice(elem)) && Alike(v, w, Slice(elem))
             && NoNil(w, Slice(elem))
    ensures w == FixNil(v, Slice(elem))
    decreases v, 0
  {
    forall i | 0 <= i < |v.items| ensures w.items[i] == FixNil(v.items[i], elem) {
      OnlyFixed(v.items[i], w.items[i], elem);
      SkipIsIdentity(v.items[i], elem);
    }
    forall i | 0 <= i < |v.items| ensures w.items[i] == FixNil(v, Slice(elem)).items[i] {
      SkipIsIdentity(v.items[i], elem);
    }
    assert w.items == FixNil(v, Slice(elem)).items;
  }

  lemma {:induction false} OnlyFixedEntries(v: Value, w: Value, elem: Type)
    requires v.Entries? && HasType(v, Map(elem)) && HasType(w, Map(elem)) && Alike(v, w, Map(elem))
             && NoNil(w, Map(elem))
    ensures w == FixNil(v, Map(elem))
    decreases v, 0
  {
    forall i | 0 <= i < |v.entries| ensures w.entries[i] == FixNil(v, Map(elem)).entries[i] {
      OnlyFixed(v.entries[i].value, w.entries[i].value, elem);
      SkipIsIdentity(v.entries[i].value, elem);
    }
    assert w.entries == FixNil(v, Map(elem)).entries;
  }

  /** A type that needs no fix is one whose values all stay as they are. */
  lemma {:induction false} SkipIsIdentity(v: Value, t: Type)
    requires HasType(v, t)
    ensures !NeedsFix(t) ==> FixNil(v, t) == v
    decreases v
  {
    if !NeedsFix(t) {
      match t {
        case Pointer(elem) =>
          if v.To? {
            SkipIsIdentity(v.target, elem);
          }
        case Struct(fields) =>
          forall i | 0 <= i < |fields| ensures FixField(v.values[i], fields[i]) == v.values[i] {
            SkipIsIdentity(v.values[i], fields[i].t);
          }
          assert FixNil(v, t).values == v.values;
        case _ =>
      }
    }
  }

  /** A value stays as it is if and only if it holds no nil list. */
  lemma {:induction false} UnchangedIff(v: Value, t: Type)
    requires HasType(v, t)
    ensures FixNil(v, t) == v <==> NoNil(v, t)
  {
    if NoNil(v, t) {
      AlikeSelf(v, t);
      OnlyFixed(v, v, t);
    } else {
      Fixed(v, t);
    }
  }

  /** Fixing twice is fixing once. */
  lemma {:induction false} Idempotent(v: Value, t: Type)
    requires HasType(v, t)
    ensures HasType(FixNil(v, t), t) && FixNil(FixNil(v, t), t) == FixNil(v, t)
  {
    Fixed(v, t);
    UnchangedIff(FixNil(v, t), t);
  }

  // ---- arrays ----------------------------------------------------------------

  /** No nil list where the encoder would see one, byte slices apart. */
  ghost predicate NoNilAnywhere(v: Value, t: Type)
    requires HasType(v, t)
    decreases v
  {
    match t
    case Slice(elem) =>
      if v.NilSlice? then elem.Byte? else forall i :: 0 <= i < |v.items| ==> NoNilAnywhere(v.items[i], elem)
    case Pointer(elem) => v.NilPointer? || NoNilAnywhere(v.target, elem)
    case Interface => v.NilInterface? || NoNilAnywhere(v.held, v.dynamic)
    case Map(elem) => v.NilMap? || forall i :: 0 <= i < |v.entries| ==> NoNilAnywhere(v.entries[i].value, elem)
    case Struct(fields) =>
      forall i :: 0 <= i < |fields| && fields[i].exported ==> NoNilAnywhere(v.values[i], fields[i].t)
    case Array(elem) => forall i :: 0 <= i < |v.elements| ==> NoNilAnywhere(v.elements[i], elem)
    case _ => true
  }

  /** The arrays the encoder would see hold no nil list. */
  ghost predicate ArraysClean(v: Value, t: Type)
    requires HasType(v, t)
    decreases v
  {
    match t
    case Slice(elem) => v.NilSlice? || forall i :: 0 <= i < |v.items| ==> ArraysClean(v.items[i], elem)
    case Pointer(elem) => v.NilPointer? || ArraysClean(v.target, elem)
    case Interface => v.NilInterface? || ArraysClean(v.held, v.dynamic)
    case Map(elem) => v.NilMap? || forall i :: 0 <= i < |v.entries| ==> ArraysClean(v.entries[i].value, elem)
    case Struct(fields) =>
      forall i :: 0 <= i < |fields| && fields[i].exported ==> ArraysClean(v.values[i], fields[i].t)
    case Array(elem) => NoNilAnywhere(v, t)
    case _ => true
  }

  /** None anywhere is none outside arrays and none in them. */
  lemma {:induction false} AnywhereIff(v: Value, t: Type)
    requires HasType(v, t)
    ensures NoNilAnywhere(v, t) <==> NoNil(v, t) && ArraysClean(v, t)
    decreases v
  {
    match t {
      case Slice(elem) =>
        if v.List? {
          forall i | 0 <= i < |v.items|
            ensures NoNilAnywhere(v.items[i], elem) <==> NoNil(v.items[i], elem) && ArraysClean(v.items[i], elem)
          {
            AnywhereIff(v.items[i], elem);
          }
        }
      case Pointer(elem) =>
        if v.To? {
          AnywhereIff(v.target, elem);
        }
      case Interface =>
        if v.Holding? {
          AnywhereIff(v.held, v.dynamic);
        }
      case Map(elem) =>
        if v.Entries? {
          forall i | 0 <= i < |v.entries|
            ensures var e := v.entries[i].value; NoNilAnywhere(e, elem) <==> NoNil(e, elem) && ArraysClean(e, elem)
          {
            AnywhereIff(v.entries[i].value, elem);
          }
        }
      case Struct(fields) =>
        forall i | 0 <= i < |fields| && fields[i].exported
          ensures var f, g := v.values[i], fields[i].t; NoNilAnywhere(f, g) <==> NoNil(f, g) && ArraysClean(f, g)
        {
          AnywhereIff(v.values[i], fields[i].t);
        }
      case _ =>
    }
  }

  /** Values alike have the same arrays. */
  lemma {:induction false} AlikeArrays(v: Value, w: Value, t: Type)
    requires HasType(v, t) && HasType(w, t) && Alike(v, w, t)
    ensures ArraysClean(v, t) <==> ArraysClean(w, t)
    decreases v
  {
    match t {
      case Slice(elem) =>
        if v.List? {
          forall i | 0 <= i < |v.items| ensures ArraysClean(v.items[i], elem) <==> ArraysClean(w.items[i], elem) {
            AlikeArrays(v.items[i], w.items[i], elem);
          }
        }
      case Pointer(elem) =>
        if v.To? {
          AlikeArrays(v.target, w.target, elem);
        }
      case Interface =>
        if v.Holding? {
          AlikeArrays(v.held, w.held, v.dynamic);
        }
      case Map(elem) =>
        if v.Entries? {
          forall i | 0 <= i < |v.entries|
            ensures ArraysClean(v.entries[i].value, elem) <==> ArraysClean(w.entries[i].value, elem)
          {
            AlikeArrays(v.entries[i].value, w.entries[i].value, elem);
          }
        }
      case Struct(fields) =>
        forall i | 0 <= i < |fields| && fields[i].exported
          ensures ArraysClean(v.values[i], fields[i].t) <==> ArraysClean(w.values[i], fields[i].t)
        {
          AlikeArrays(v.values[i], w.values[i], fields[i].t);
        }
      case _ =>
    }
  }

  /** The result holds no nil list anywhere the encoder looks if and only if the arrays
    * of the value hold none: all others are replaced, and these never. */
  lemma {:induction false} NoNilLeftIff(v: Value, t: Type)
    requires HasType(v, t)
    ensures HasType(FixNil(v, t), t)
    ensures NoNilAnywhere(FixNil(v, t), t) <==> ArraysClean(v, t)
  {
    Fixed(v, t);
    AnywhereIff(FixNil(v, t), t);
    AlikeArrays(v, FixNil(v, t), t);
  }

  /** Such a value: an array of lists, one of them nil, is left as it is. */
  lemma {:induction false} ArrayKeepsNil() returns (v: Value, t: Type)
    ensures HasType(v, t) && FixNil(v, t) == v && !NoNilAnywhere(v, t)
  {
    v, t := Elements([NilSlice]), Array(Slice(Plain));
    assert HasType(v.elements[0], Slice(Plain));
    assert !NoNilAnywhere(v.elements[0], Slice(Plain));
  }

  // ---- as the code does it ---------------------------------------------------

  /** needsFix: the fields are scanned until one needs a fix. */
  method ScanType(t: Type) returns (b: bool)
    ensures b == NeedsFix(t)
  {
    match t {
      case Slice(_) => return true;
      case Pointer(elem) => b := ScanType(elem);
      case Map(elem) => b := ScanType(elem);
      case Interface => return true;
      case Struct(fields) =>
        for i := 0 to |fields|
          invariant forall j :: 0 <= j < i && fields[j].exported ==> !NeedsFix(fields[j].t)
        {
          if fields[i].exported {
            b := ScanType(fields[i].t);
            if b {
              return true;
            }
          }
        }
        b := false;
      case _ => b := false;
    }
  }

  /** fixNil: new lists, maps and structs are filled part by part. */
  method Fix(v: Value, t: Type) returns (w: Value)
    requires HasType(v, t)
    ensures w == FixNil(v, t)
    decreases v
  {
    match t {
      case Slice(elem) =>
        if v.NilSlice? {
          return if elem.Byte? then v else List([]);
        }
        if !NeedsFix(elem) {
          return v;
        }
        var items: seq<Value> := [];
        for i := 0 to |v.items|
          invariant |items| == i && forall j :: 0 <= j < i ==> items[j] == FixNil(v.items[j], elem)
        {
          var item := Fix(v.items[i], elem);
          items := items + [item];
        }
        w := List(items);
      case Pointer(elem) =>
        if v.NilPointer? {
          return v;
        }
        var target := Fix(v.target, elem);
        w := To(target);
      case Interface =>
        if v.NilInterface? {
          return v;
        }
        var held := Fix(v.held, v.dynamic);
        w := Holding(v.dynamic, held);
      case Map(elem) =>
        if v.NilMap? || !NeedsFix(elem) {
          return v;
        }
        var entries: seq<Entry> := [];
        for i := 0 to |v.entries|
          invariant |entries| == i
          invariant forall j :: 0 <= j < i ==> entries[j] == Entry(v.entries[j].key, FixNil(v.entries[j].value, elem))
        {
          var value := Fix(v.entries[i].value, elem);
          entries := entries + [Entry(v.entries[i].key, value)];
        }
        w := Entries(entries);
      case Struct(fields) =>
        var values := v.values;
        for i := 0 to |fields|
          invariant |values| == |fields| && forall j :: i <= j < |fields| ==> values[j] == v.values[j]
          invariant forall j :: 0 <= j < i ==> values[j] == FixField(v.values[j], fields[j])
        {
          if fields[i].exported && NeedsFix(fields[i].t) {
            var value := Fix(v.values[i], fields[i].t);
            values := values[i := value];
          }
        }
        w := Fields(values);
      case _ => w := v;
    }
  }
}
