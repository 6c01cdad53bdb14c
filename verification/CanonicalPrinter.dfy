/** contract/envelope.go: writing canonical bytes. */
module CanonicalPrinter {
  import opened Basics
  import opened CanonicalJson
  import opened CanonicalProofs

  lemma {:induction false} CharsThen(s: string, k: string)
    ensures PrintChars(s, k) == PrintChars(s, "") + k
    decreases |s|
  {
    if s != "" {
      CharsThen(s[1..], k);
    }
  }

  /** json.Marshal of a string. */
  function Quoted(s: string): string {
    PrintString(s, "")
  }

  lemma QuotedThen(s: string, k: string)
    ensures Quoted(s) + k == PrintString(s, k)
  {
    CharsThen(s, "\"");
    CharsThen(s, "\"" + k);
    assert "\"" + "" == "\"";
    var chars := PrintChars(s, "");
    assert "\"" + (chars + "\"") + k == "\"" + (chars + ("\"" + k));
  }

  /** The text still to come once i of the items are written. */
  ghost function ItemsFrom(items: seq<Json>, i: nat, k: string): string
    requires i <= |items|
  {
    if i == 0 then PrintItems(items, k)
    else if i == |items| then k
    else "," + PrintItems(items[i..], k)
  }

  ghost function MembersFrom(members: seq<Member>, i: nat, k: string): string
    requires i <= |members|
  {
    if i == 0 then PrintMembers(members, k)
    else if i == |members| then k
    else "," + PrintMembers(members[i..], k)
  }

  lemma ItemsNext(items: seq<Json>, i: nat, k: string)
    requires i < |items|
    ensures ItemsFrom(items, i, k) == (if i == 0 then "" else ",") + Print(items[i], ItemsFrom(items, i + 1, k))
  {
    assert items[i..][0] == items[i] && items[i..][1..] == items[i + 1..];
    assert items[0..] == items;
  }

  lemma MembersNext(members: seq<Member>, i: nat, k: string)
    requires i < |members|
    ensures MembersFrom(members, i, k)
         == (if i == 0 then "" else ",")
            + PrintString(members[i].key, ":" + Print(members[i].value, MembersFrom(members, i + 1, k)))
  {
    assert members[i..][0] == members[i] && members[i..][1..] == members[i + 1..];
    assert members[0..] == members;
  }

  function IndexOf(members: seq<Member>, key: string): (i: nat)
    requires key in Keys(members)
    ensures i < |members| && members[i].key == key
  {
    if members[0].key == key then 0
    else
      assert Keys(members)[1..] == Keys(members[1..]);
      1 + IndexOf(members[1..], key)
  }

  /** The sorted canonical members, one by one. */
  lemma SortedMember(members: seq<Member>, keys: seq<string>, t: nat, i: nat, floats: Floats)
    requires NoRepeats(Keys(members)) && StrictlySorted(keys) && forall k :: k in keys <==> k in Keys(members)
    requires t < |keys| && i < |members| && members[i].key == keys[t]
    ensures var canon := SortMembers(CanonMembers(members, floats));
            |canon| == |keys| && canon[t] == Member(keys[t], Canon(members[i].value, floats))
  {
    var listed := CanonMembers(members, floats);
    var canon := SortMembers(listed);
    CountKeys(members, keys, floats);
    CanonKeys(members, floats);
    Sorted(listed);
    assert canon[t].key == Keys(canon)[t] == keys[t];
    assert canon[t] in listed;
    EachCanon(members, floats);
    CanonOfKey(members, listed, canon[t], i, floats);
  }

  lemma CanonOfKey(members: seq<Member>, listed: seq<Member>, m: Member, i: nat, floats: Floats)
    requires NoRepeats(Keys(members)) && |listed| == |members| && m in listed
    requires forall j :: 0 <= j < |members| ==> listed[j] == Member(members[j].key, Canon(members[j].value, floats))
    requires i < |members| && members[i].key == m.key
    ensures m == Member(members[i].key, Canon(members[i].value, floats))
  {
    var j: nat :| j < |listed| && listed[j] == m;
    OneKey(members, i, j);
  }

  lemma EachCanon(members: seq<Member>, floats: Floats)
    ensures forall j :: 0 <= j < |members| ==>
              CanonMembers(members, floats)[j] == Member(members[j].key, Canon(members[j].value, floats))
  {
    forall j | 0 <= j < |members|
      ensures CanonMembers(members, floats)[j] == Member(members[j].key, Canon(members[j].value, floats))
    {
      CanonMembersAt(members, j, floats);
    }
  }

  lemma OneKey(members: seq<Member>, i: nat, j: nat)
    requires NoRepeats(Keys(members)) && i < |members| && j < |members| && members[i].key == members[j].key
    ensures i == j
  {
    NoRepeatsOnce(Keys(members), i, j);
  }

  /** Appends the canonical text of a value to a buffer, or fails on a number no float holds. */
  method EncodeCanonical(buffer: string, v: Json, floats: Floats) returns (r: Option<string>)
    requires WellFormed(v)
    ensures r.Some? <==> Printable(v, floats)
    ensures r.Some? ==> forall k :: r.value + k == buffer + Print(Canon(v, floats), k)
    decreases v, 0
  {
    match v
    case Null =>
      assert forall k :: buffer + "null" + k == buffer + ("null" + k);
      return Some(buffer + "null");
    case Bool(b) =>
      var word := if b then "true" else "false";
      assert forall k :: buffer + word + k == buffer + (word + k);
      return Some(buffer + word);
    case Num(text) =>
      var normalized := NormalizeNumber(text, floats);
      if normalized.None? {
        return None;
      }
      assert forall k :: buffer + normalized.value + k == buffer + (normalized.value + k);
      return Some(buffer + normalized.value);
    case Str(s) =>
      forall k
        ensures buffer + Quoted(s) + k == buffer + PrintString(s, k)
      {
        QuotedThen(s, k);
        assert buffer + Quoted(s) + k == buffer + (Quoted(s) + k);
      }
      return Some(buffer + Quoted(s));
    case Arr(items) =>
      r := EncodeItems(buffer + "[", v, items, floats);
      if r.Some? {
        Bracketed(buffer, r.value, "[", "]", v, floats);
        r := Some(r.value + "]");
      }
    case Obj(members) =>
      r := EncodeMembers(buffer + "{", v, members, floats);
      if r.Some? {
        Bracketed(buffer, r.value, "{", "}", v, floats);
        r := Some(r.value + "}");
      }
  }

  // The text of a list between its brackets.
  ghost function Inside(v: Json, floats: Floats, k: string): string
    requires v.Arr? || v.Obj?
  {
    if v.Arr? then PrintItems(CanonItems(v.items, floats), k)
    else PrintMembers(SortMembers(CanonMembers(v.members, floats)), k)
  }

  lemma Bracketed(buffer: string, written: string, open: string, close: string, v: Json, floats: Floats)
    requires (v.Arr? && open == "[" && close == "]") || (v.Obj? && open == "{" && close == "}")
    requires forall k :: written + k == buffer + open + Inside(v, floats, k)
    ensures forall k :: written + close + k == buffer + Print(Canon(v, floats), k)
  {
    forall k
      ensures written + close + k == buffer + Print(Canon(v, floats), k)
    {
      assert written + (close + k) == buffer + open + Inside(v, floats, close + k);
      Regroup(written, close, k);
      Regroup(buffer, open, Inside(v, floats, close + k));
    }
  }

  lemma Regroup(a: string, b: string, c: string)
    ensures a + b + c == a + (b + c)
  {
  }

  // The loop over an array.
  method EncodeItems(buffer: string, ghost v: Json, items: seq<Json>, floats: Floats) returns (r: Option<string>)
    requires v == Arr(items) && WellFormed(v)
    ensures r.Some? <==> Printable(v, floats)
    ensures r.Some? ==> forall k :: r.value + k == buffer + Inside(v, floats, k)
    decreases items, 1
  {
    var written := buffer;
    ghost var canon := CanonItems(items, floats);
    for i := 0 to |items|
      invariant forall n :: 0 <= n < i ==> Printable(items[n], floats)
      invariant forall k :: written + ItemsFrom(canon, i, k) == buffer + PrintItems(canon, k)
    {
      var start := if i != 0 then written + "," else written;
      var one := EncodeCanonical(start, items[i], floats);
      if one.None? {
        return None;
      }
      assert canon[i] == Canon(items[i], floats) by {
        CanonItemsAt(items, i, floats);
      }
      ItemWritten(buffer, written, one.value, canon, i);
      written := one.value;
    }
    return Some(written);
  }

  lemma ItemWritten(buffer: string, before: string, after: string, canon: seq<Json>, i: nat)
    requires i < |canon|
    requires forall k :: before + ItemsFrom(canon, i, k) == buffer + PrintItems(canon, k)
    requires forall k :: after + k == (if i != 0 then before + "," else before) + Print(canon[i], k)
    ensures forall k :: after + ItemsFrom(canon, i + 1, k) == buffer + PrintItems(canon, k)
  {
    forall k
      ensures after + ItemsFrom(canon, i + 1, k) == buffer + PrintItems(canon, k)
    {
      var rest := ItemsFrom(canon, i + 1, k);
      assert after + rest == (if i != 0 then before + "," else before) + Print(canon[i], rest);
      ItemsNext(canon, i, k);
      Separated(before, i, Print(canon[i], rest));
    }
  }

  lemma Separated(before: string, i: nat, text: string)
    ensures (if i != 0 then before + "," else before) + text == before + ((if i == 0 then "" else ",") + text)
  {
    assert before + "," + text == before + ("," + text);
    assert "" + text == text;
  }

  // The loop over an object's sorted keys.
  method EncodeMembers(buffer: string, ghost v: Json, members: seq<Member>, floats: Floats) returns (r: Option<string>)
    requires v == Obj(members) && WellFormed(v)
    ensures r.Some? <==> Printable(v, floats)
    ensures r.Some? ==> forall k :: r.value + k == buffer + Inside(v, floats, k)
    decreases members, 1
  {
    var keys := SortKeys(set i | 0 <= i < |members| :: members[i].key);
    KeySet(members, keys);
    var written := buffer;
    ghost var canon := SortMembers(CanonMembers(members, floats));
    assert Keys(canon) == keys by {
      CountKeys(members, keys, floats);
    }
    for t := 0 to |keys|
      invariant forall n :: 0 <= n < t ==> PrintableUnder(members, keys[n], floats)
      invariant forall k :: written + MembersFrom(canon, t, k) == buffer + PrintMembers(canon, k)
    {
      assert keys[t] in keys;
      var i := IndexOf(members, keys[t]);
      var start := (if t != 0 then written + "," else written) + Quoted(keys[t]) + ":";
      var one := EncodeCanonical(start, members[i].value, floats);
      if one.None? {
        return None;
      }
      PrintableAt(members, i, floats);
      SortedMember(members, keys, t, i, floats);
      MemberWritten(buffer, written, one.value, canon, t);
      written := one.value;
    }
    AllPrintable(members, keys, floats);
    return Some(written);
  }

  lemma KeySet(members: seq<Member>, keys: seq<string>)
    requires forall k :: k in keys <==> k in (set i | 0 <= i < |members| :: members[i].key)
    ensures forall k :: k in keys <==> k in Keys(members)
  {
    forall k
      ensures k in keys <==> k in Keys(members)
    {
      if k in keys {
        var i :| 0 <= i < |members| && members[i].key == k;
        assert Keys(members)[i] == k;
      }
    }
  }

  lemma CountKeys(members: seq<Member>, keys: seq<string>, floats: Floats)
    requires NoRepeats(Keys(members)) && StrictlySorted(keys) && forall k :: k in keys <==> k in Keys(members)
    ensures Keys(SortMembers(CanonMembers(members, floats))) == keys
  {
    var listed := CanonMembers(members, floats);
    CanonKeys(members, floats);
    Sorted(listed);
    SameKeys(SortMembers(listed), listed);
    SortedListingUnique(Keys(SortMembers(listed)), keys);
  }

  ghost predicate PrintableUnder(members: seq<Member>, key: string, floats: Floats) {
    forall i :: 0 <= i < |members| && members[i].key == key ==> Printable(members[i].value, floats)
  }

  lemma PrintableAt(members: seq<Member>, i: nat, floats: Floats)
    requires NoRepeats(Keys(members)) && i < |members|
    ensures PrintableUnder(members, members[i].key, floats) <==> Printable(members[i].value, floats)
  {
    forall j | 0 <= j < |members| && members[j].key == members[i].key
      ensures i == j
    {
      assert Keys(members)[i] == Keys(members)[j];
    }
  }

  lemma AllPrintable(members: seq<Member>, keys: seq<string>, floats: Floats)
    requires forall k :: k in Keys(members) ==> k in keys
    requires forall n :: 0 <= n < |keys| ==> PrintableUnder(members, keys[n], floats)
    ensures forall i :: 0 <= i < |members| ==> Printable(members[i].value, floats)
  {
    forall i | 0 <= i < |members|
      ensures Printable(members[i].value, floats)
    {
      assert Keys(members)[i] in keys;
      var n :| 0 <= n < |keys| && keys[n] == Keys(members)[i];
      assert PrintableUnder(members, keys[n], floats);
    }
  }

  lemma MemberWritten(buffer: string, before: string, after: string, canon: seq<Member>, t: nat)
    requires t < |canon|
    requires forall k :: before + MembersFrom(canon, t, k) == buffer + PrintMembers(canon, k)
    requires forall k :: after + k == (if t != 0 then before + "," else before) + Quoted(canon[t].key) + ":"
                                      + Print(canon[t].value, k)
    ensures forall k :: after + MembersFrom(canon, t + 1, k) == buffer + PrintMembers(canon, k)
  {
    forall k
      ensures after + MembersFrom(canon, t + 1, k) == buffer + PrintMembers(canon, k)
    {
      var rest := MembersFrom(canon, t + 1, k);
      assert after + rest == (if t != 0 then before + "," else before) + Quoted(canon[t].key) + ":"
                             + Print(canon[t].value, rest);
      MembersNext(canon, t, k);
      MemberText(before, t, canon[t].key, Print(canon[t].value, rest));
    }
  }

  lemma MemberText(before: string, t: nat, key: string, value: string)
    ensures (if t != 0 then before + "," else before) + Quoted(key) + ":" + value
         == before + ((if t == 0 then "" else ",") + PrintString(key, ":" + value))
  {
    var start := if t != 0 then before + "," else before;
    QuotedThen(key, ":" + value);
    var quoted := Quoted(key);
    assert start + quoted + ":" + value == start + (quoted + (":" + value));
    Separated(before, t, quoted + (":" + value));
  }

  /** Canonicalize: one value read and printed canonically. */
  function Canonicalized(raw: string, floats: Floats): Option<string> {
    var v := Decode(raw);
    if v.None? || !Printable(v.value, floats) then None else Some(Encode(v.value, floats))
  }

  method Canonicalize(raw: string, floats: Floats) returns (r: Option<string>)
    ensures r == Canonicalized(raw, floats)
  {
    var v := Decode(raw);
    if v.None? {
      return None;
    }
    ReadIsWellFormed(raw);
    r := EncodeCanonical("", v.value, floats);
    if r.Some? {
      var text := Print(Canon(v.value, floats), "");
      assert r.value + "" == "" + text;
      assert r.value + "" == r.value && "" + text == text;
    }
  }

  /** Canonicalizing what json.Marshal wrote for a value gives that value's canonical bytes. */
  lemma CanonicalizedPrint(v: Json, floats: Floats)
    requires WellFormed(v)
    ensures Canonicalized(Print(v, ""), floats) == if Printable(v, floats) then Some(Encode(v, floats)) else None
  {
    ReadPrinted(v, "");
    assert SkipWhite("") == "";
  }
}
