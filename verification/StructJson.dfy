/** How encoding/json writes a Go struct and reads one back, with unknown fields refused. */
module StructJson {
  import opened Basics
  import opened CanonicalJson
  import opened CanonicalProofs
  import opened CanonicalPrinter

  // ---- keys and fields ------------------------------------------------------------------------

  // encoding/json matches a key to a field without regard to case.
  function FoldChar(c: char): char {
    if 'a' <= c <= 'z' then c - 'a' + 'A'
    else if c == '\U{17f}' then 'S'
    else if c == '\U{212a}' then 'K'
    else c
  }

  function Fold(key: string): (r: string)
    ensures |r| == |key|
  {
    seq(|key|, i requires 0 <= i < |key| => FoldChar(key[i]))
  }

  function FirstFolded(key: string, names: seq<string>): (r: Option<string>)
    ensures r.Some? ==> r.value in names && |r.value| == |key|
  {
    if |names| == 0 then None
    else if Fold(names[0]) == Fold(key) then assert |Fold(key)| == |Fold(names[0])|; Some(names[0])
    else FirstFolded(key, names[1..])
  }

  // The field a key names: exactly, or else up to case.
  function Field(key: string, names: seq<string>): (r: Option<string>)
    ensures r.Some? ==> r.value in names && |r.value| == |key|
  {
    if key in names then Some(key) else FirstFolded(key, names)
  }

  // ---- writing --------------------------------------------------------------------------------

  /** The members of a struct in field order. A field left empty and marked omitempty is None. */
  function Listed(names: seq<string>, values: seq<Option<Json>>): (members: seq<Member>)
    requires |names| == |values|
  {
    if |names| == 0 then []
    else (if values[0].Some? then [Member(names[0], values[0].value)] else []) + Listed(names[1..], values[1..])
  }

  function Struct(names: seq<string>, values: seq<Option<Json>>): Json
    requires |names| == |values|
  {
    Obj(Listed(names, values))
  }

  function WriteAll<T>(items: seq<T>, write: T -> Json): (r: seq<Json>)
    ensures |r| == |items|
  {
    if |items| == 0 then [] else [write(items[0])] + WriteAll(items[1..], write)
  }

  function TextJson(text: string): Json {
    Str(text)
  }

  // A pointer field marked omitempty.
  function Optional(text: Option<string>): Option<Json> {
    if text.None? then None else Some(Str(text.value))
  }

  // A pointer without omitempty.
  function Nullable(text: Option<string>): Option<Json> {
    Some(if text.None? then Null else Str(text.value))
  }

  function NullableSlice<T>(items: Option<seq<T>>, write: T -> Json): Option<Json> {
    Some(if items.None? then Null else Arr(WriteAll(items.value, write)))
  }

  // ---- reading --------------------------------------------------------------------------------

  /** The value each field is given. Null leaves a text, a number or a struct as it was, but sets a
      pointer or a slice to nil. */
  function Gather(members: seq<Member>, names: seq<string>, plain: set<string>, got: map<string, Json>)
    : Option<map<string, Json>>
  {
    if |members| == 0 then Some(got)
    else
      match Field(members[0].key, names)
      case None => None
      case Some(name) =>
        var value := members[0].value;
        Gather(members[1..], names, plain, if value == Null && name in plain then got else got[name := value])
  }

  function Lookup(got: map<string, Json>, name: string): Option<Json> {
    if name in got then Some(got[name]) else None
  }

  /** What an object gives each field of a struct, in field order. Null gives nothing. */
  function ReadStruct(v: Json, names: seq<string>, plain: set<string>): (r: Option<seq<Option<Json>>>)
    ensures r.Some? ==> |r.value| == |names|
  {
    if v == Null then Some(seq(|names|, i => None))
    else if !v.Obj? then None
    else
      var got := Gather(v.members, names, plain, map[]);
      if got.None? then None else Some(seq(|names|, i requires 0 <= i < |names| => Lookup(got.value, names[i])))
  }

  function ReadAll<T>(items: seq<Json>, read: Json -> Option<T>): (r: Option<seq<T>>)
    ensures r.Some? ==> |r.value| == |items|
  {
    if |items| == 0 then Some([])
    else
      var first := read(items[0]);
      if first.None? then None
      else
        var others := ReadAll(items[1..], read);
        if others.None? then None else Some([first.value] + others.value)
  }

  // A field of type string.
  function Text(v: Option<Json>): Option<string> {
    match v
    case None => Some("")
    case Some(Str(s)) => Some(s)
    case _ => None
  }

  // A field of type *string.
  function TextPointer(v: Option<Json>): Option<Option<string>> {
    match v
    case None => Some(None)
    case Some(Null) => Some(None)
    case Some(Str(s)) => Some(Some(s))
    case _ => None
  }

  // A field of type *T.
  function Pointer<T>(v: Option<Json>, read: Json -> Option<T>): Option<Option<T>> {
    if v == None || v == Some(Null) then Some(None)
    else
      var r := read(v.value);
      if r.None? then None else Some(r)
  }

  // A field of type []T.
  function Slice<T>(v: Option<Json>, read: Json -> Option<T>): Option<Option<seq<T>>> {
    match v
    case None => Some(None)
    case Some(Null) => Some(None)
    case Some(Arr(items)) => (var r := ReadAll(items, read); if r.None? then None else Some(r))
    case _ => None
  }

  // An element of type string. Null leaves it empty.
  function TextItem(v: Json): Option<string> {
    match v
    case Null => Some("")
    case Str(s) => Some(s)
    case _ => None
  }

  // ---- unsigned integers ----------------------------------------------------------------------

  function Digit(n: nat): char
    requires n < 10
  {
    "0123456789"[n]
  }

  function Decimal(n: nat): (r: string)
    ensures r != "" && forall c :: c in r ==> IsDigit(c)
  {
    if n < 10 then [Digit(n)] else Decimal(n / 10) + [Digit(n % 10)]
  }

  function DecimalValue(t: string): nat
    requires forall c :: c in t ==> IsDigit(c)
  {
    if t == "" then 0
    else
      var last := t[|t| - 1];
      assert IsDigit(last) by { assert last in t; }
      DecimalValue(t[..|t| - 1]) * 10 + (last as int - '0' as int)
  }

  // A field of type uint64: a number without sign, fraction or exponent, and in range.
  function Unsigned(v: Option<Json>, limit: nat): Option<nat> {
    match v
    case None => Some(0)
    case Some(Num(text)) =>
      if (forall c :: c in text ==> IsDigit(c)) && DecimalValue(text) < limit then Some(DecimalValue(text)) else None
    case _ => None
  }

  lemma {:induction false} DecimalReads(n: nat)
    ensures DecimalValue(Decimal(n)) == n
    decreases n
  {
    if n >= 10 {
      DecimalReads(n / 10);
      var t := Decimal(n);
      assert t[..|t| - 1] == Decimal(n / 10) && t[|t| - 1] == Digit(n % 10);
    }
  }

  lemma {:induction false} DigitsSkip(t: string)
    requires forall c :: c in t ==> IsDigit(c)
    ensures SkipDigits(t) == ""
  {
    if t != "" {
      assert t[0] in t;
      DigitsSkip(t[1..]);
    }
  }

  lemma {:induction false} DecimalStarts(n: nat)
    ensures Decimal(n)[0] == '0' ==> n == 0 && Decimal(n) == "0"
  {
    if n >= 10 {
      DecimalStarts(n / 10);
    }
  }

  /** A decimal is a JSON number that is its own canonical form. */
  lemma DecimalIsNumber(n: nat, floats: Floats)
    ensures ValidNumber(Decimal(n)) && NormalizeNumber(Decimal(n), floats) == Some(Decimal(n))
  {
    var t := Decimal(n);
    assert t[0] in t;
    DigitsSkip(t);
    DecimalStarts(n);
  }

  // ---- what is written reads back --------------------------------------------------------------

  /** The value of a key in an object. */
  ghost function Find(members: seq<Member>, key: string): Option<Json> {
    if |members| == 0 then None
    else if members[0].key == key then Some(members[0].value)
    else Find(members[1..], key)
  }

  ghost function Kept(v: Option<Json>, name: string, plain: set<string>): Option<Json> {
    if v == Some(Null) && name in plain then None else v
  }

  lemma {:induction false} FoundAt(members: seq<Member>, i: nat)
    requires NoRepeats(Keys(members)) && i < |members|
    ensures Find(members, members[i].key) == Some(members[i].value)
    decreases |members|
  {
    if i > 0 {
      assert Keys(members)[0] != Keys(members)[i];
      TailKeys(members);
      FoundAt(members[1..], i - 1);
    }
  }

  lemma {:induction false} NotFound(members: seq<Member>, key: string)
    requires key !in Keys(members)
    ensures Find(members, key) == None
    decreases |members|
  {
    if |members| > 0 {
      assert Keys(members)[0] in Keys(members);
      assert Keys(members)[1..] == Keys(members[1..]);
      NotFound(members[1..], key);
    }
  }

  /** Reordering an object changes nothing that is found in it. */
  lemma FindAlike(a: seq<Member>, b: seq<Member>, key: string)
    requires NoRepeats(Keys(a)) && NoRepeats(Keys(b)) && forall m :: m in a <==> m in b
    ensures Find(a, key) == Find(b, key)
  {
    SameKeys(a, b);
    if key in Keys(a) {
      var i: nat :| i < |a| && Keys(a)[i] == key;
      assert a[i] in b;
      var j: nat :| j < |b| && b[j] == a[i];
      FoundAt(a, i);
      FoundAt(b, j);
    } else {
      NotFound(a, key);
      NotFound(b, key);
    }
  }

  ghost function CanonOption(v: Option<Json>, floats: Floats): Option<Json> {
    if v.None? then None else Some(Canon(v.value, floats))
  }

  lemma {:induction false} FindCanon(members: seq<Member>, key: string, floats: Floats)
    ensures Find(CanonMembers(members, floats), key) == CanonOption(Find(members, key), floats)
    decreases |members|
  {
    if |members| > 0 {
      FindCanon(members[1..], key, floats);
      var listed := CanonMembers(members, floats);
      assert listed[1..] == CanonMembers(members[1..], floats);
    }
  }

  // The value names[i] is given among those listed.
  lemma {:induction false} FindListed(names: seq<string>, values: seq<Option<Json>>, i: nat)
    requires |names| == |values| && i < |names| && NoRepeats(names)
    ensures Find(Listed(names, values), names[i]) == values[i]
    decreases |names|
  {
    var rest := Listed(names[1..], values[1..]);
    if i == 0 {
      if values[0].None? {
        ListedKeys(names[1..], values[1..]);
        OnlyFirst(names);
        NotFound(rest, names[0]);
        assert Listed(names, values) == rest;
      } else {
        assert Listed(names, values)[0] == Member(names[0], values[0].value);
      }
    } else {
      OnlyFirst(names);
      FindListed(names[1..], values[1..], i - 1);
      SkipFirst(names, values, names[i]);
    }
  }

  lemma OnlyFirst(names: seq<string>)
    requires NoRepeats(names) && |names| > 0
    ensures names[0] !in names[1..] && NoRepeats(names[1..])
    ensures forall i :: 0 < i < |names| ==> names[i] != names[0] && names[i] == names[1..][i - 1]
  {
  }

  lemma SkipFirst(names: seq<string>, values: seq<Option<Json>>, key: string)
    requires |names| == |values| && |names| > 0 && key != names[0]
    ensures Find(Listed(names, values), key) == Find(Listed(names[1..], values[1..]), key)
  {
    var rest := Listed(names[1..], values[1..]);
    if values[0].Some? {
      assert Listed(names, values)[1..] == rest;
    } else {
      assert Listed(names, values) == rest;
    }
  }

  lemma {:induction false} ListedKeys(names: seq<string>, values: seq<Option<Json>>)
    requires |names| == |values| && NoRepeats(names)
    ensures NoRepeats(Keys(Listed(names, values)))
    ensures forall k :: k in Keys(Listed(names, values)) ==> k in names
    decreases |names|
  {
    if |names| > 0 {
      var rest := Listed(names[1..], values[1..]);
      OnlyFirst(names);
      ListedKeys(names[1..], values[1..]);
      if values[0].Some? {
        assert Keys(Listed(names, values)) == [names[0]] + Keys(rest);
      } else {
        assert Listed(names, values) == rest;
      }
    }
  }

  lemma {:induction false} ListedValues(names: seq<string>, values: seq<Option<Json>>, floats: Floats)
    requires |names| == |values|
    requires forall i :: 0 <= i < |values| && values[i].Some? ==>
               WellFormed(values[i].value) && Printable(values[i].value, floats)
    ensures forall i :: 0 <= i < |Listed(names, values)| ==>
              WellFormed(Listed(names, values)[i].value) && Printable(Listed(names, values)[i].value, floats)
    decreases |names|
  {
    if |names| > 0 {
      ListedValues(names[1..], values[1..], floats);
    }
  }

  /** A struct whose fields are named apart prints, if its fields do. */
  lemma StructIsWellFormed(names: seq<string>, values: seq<Option<Json>>, floats: Floats)
    requires |names| == |values| && NoRepeats(names)
    requires forall i :: 0 <= i < |values| && values[i].Some? ==>
               WellFormed(values[i].value) && Printable(values[i].value, floats)
    ensures WellFormed(Struct(names, values)) && Printable(Struct(names, values), floats)
  {
    ListedKeys(names, values);
    ListedValues(names, values, floats);
  }

  /** Gathering finds what the object has, whatever order it has it in. */
  lemma {:induction false} Gathered(members: seq<Member>, names: seq<string>, plain: set<string>,
                                    got: map<string, Json>)
    requires NoRepeats(Keys(members)) && forall k :: k in Keys(members) ==> k in names && k !in got
    ensures var r := Gather(members, names, plain, got);
            r.Some? && forall name ::
              Lookup(r.value, name) == if name in got then Some(got[name]) else Kept(Find(members, name), name, plain)
    decreases |members|
  {
    if |members| > 0 {
      var key, value := members[0].key, members[0].value;
      assert Keys(members)[0] in Keys(members);
      var next := if value == Null && key in plain then got else got[key := value];
      TailKeys(members);
      TailMembers(members);
      Gathered(members[1..], names, plain, next);
      NotFound(members[1..], key);
    }
  }

  lemma TailMembers(members: seq<Member>)
    requires |members| > 0 && NoRepeats(Keys(members))
    ensures members[0].key !in Keys(members[1..])
    ensures forall k :: k in Keys(members[1..]) ==> k in Keys(members)
  {
    assert Keys(members)[1..] == Keys(members[1..]);
    OnlyFirst(Keys(members));
  }

  /** The canonical form of a struct reads back as the canonical forms of its fields. */
  lemma StructReads(names: seq<string>, values: seq<Option<Json>>, plain: set<string>, floats: Floats)
    requires |names| == |values| && NoRepeats(names)
    ensures var r := ReadStruct(Canon(Struct(names, values), floats), names, plain);
            r.Some? && forall i :: 0 <= i < |names| ==>
              r.value[i] == Kept(CanonOption(values[i], floats), names[i], plain)
  {
    var listed := Listed(names, values);
    var canon := CanonMembers(listed, floats);
    var sorted := SortMembers(canon);
    ListedKeys(names, values);
    CanonKeys(listed, floats);
    Sorted(canon);
    SortedKeysDiffer(sorted);
    SameKeys(sorted, canon);
    Gathered(sorted, names, plain, map[]);
    forall i | 0 <= i < |names|
      ensures Find(sorted, names[i]) == CanonOption(values[i], floats)
    {
      FindAlike(sorted, canon, names[i]);
      FindCanon(listed, names[i], floats);
      FindListed(names, values, i);
    }
  }

  /** A list of items reads back item by item, or not at all if one of them does not. */
  lemma {:induction false} ItemsRead<T>(items: seq<T>, write: T -> Json, read: Json -> Option<T>, fits: T -> bool,
                                        floats: Floats)
    requires forall x :: x in items ==>
               read(Canon(write(x), floats)) == if fits(x) then Some(x) else None
    ensures ReadAll(CanonItems(WriteAll(items, write), floats), read)
         == if forall x :: x in items ==> fits(x) then Some(items) else None
    decreases |items|
  {
    if |items| > 0 {
      assert items[0] in items && items == [items[0]] + items[1..];
      ItemsRead(items[1..], write, read, fits, floats);
      var json := WriteAll(items, write);
      var canon := CanonItems(json, floats);
      assert canon[0] == Canon(write(items[0]), floats);
      assert canon[1..] == CanonItems(WriteAll(items[1..], write), floats) by {
        assert json[1..] == WriteAll(items[1..], write);
      }
    }
  }

  lemma {:induction false} ItemsWritten<T>(items: seq<T>, write: T -> Json, i: nat)
    requires i < |items|
    ensures WriteAll(items, write)[i] == write(items[i])
  {
    if i > 0 {
      ItemsWritten(items[1..], write, i - 1);
    }
  }

  /** A list whose items print and read back prints and reads back. */
  lemma ListReads<T(!new)>(items: seq<T>, write: T -> Json, read: Json -> Option<T>, floats: Floats)
    requires forall x :: read(Canon(write(x), floats)) == Some(x)
    requires forall x :: WellFormed(write(x)) && Printable(write(x), floats)
    ensures var v := Arr(WriteAll(items, write));
            && Slice(Some(Canon(v, floats)), read) == Some(Some(items))
            && WellFormed(v) && Printable(v, floats)
  {
    ItemsRead(items, write, read, _ => true, floats);
    ListIsWellFormed(items, write, floats);
  }

  lemma ListIsWellFormed<T(!new)>(items: seq<T>, write: T -> Json, floats: Floats)
    requires forall x :: WellFormed(write(x)) && Printable(write(x), floats)
    ensures WellFormed(Arr(WriteAll(items, write))) && Printable(Arr(WriteAll(items, write)), floats)
  {
    forall i | 0 <= i < |items|
      ensures WellFormed(WriteAll(items, write)[i]) && Printable(WriteAll(items, write)[i], floats)
    {
      ItemsWritten(items, write, i);
    }
  }

  lemma OptionalReads(text: Option<string>, floats: Floats)
    ensures TextPointer(CanonOption(Optional(text), floats)) == Some(text)
  {
  }

  lemma NullableReads(text: Option<string>, floats: Floats)
    ensures TextPointer(CanonOption(Nullable(text), floats)) == Some(text)
  {
  }

  lemma NullableListReads<T(!new)>(items: Option<seq<T>>, write: T -> Json, read: Json -> Option<T>, floats: Floats)
    requires forall x :: read(Canon(write(x), floats)) == Some(x)
    requires forall x :: WellFormed(write(x)) && Printable(write(x), floats)
    ensures var v := NullableSlice(items, write);
            && v.Some? && WellFormed(v.value) && Printable(v.value, floats)
            && Slice(CanonOption(v, floats), read) == Some(items)
  {
    if items.Some? {
      ListReads(items.value, write, read, floats);
    }
  }
}
