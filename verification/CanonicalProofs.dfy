/** Canonical printing is unambiguous: what it prints reads back, and two values print alike
    exactly when they differ at most in key order and in how their numbers are written. */
module CanonicalProofs {
  import opened Basics
  import opened CanonicalJson

  // ---- reading back -------------------------------------------------------------------------

  lemma HexRoundTrip(n: int)
    requires 0 <= n < 16
    ensures HexValue(HexDigit(n)) == Some(n)
  {
    var digits := "0123456789abcdef";
    assert n == 0 || n == 1 || n == 2 || n == 3 || n == 4 || n == 5 || n == 6 || n == 7 || n == 8 || n == 9
      || n == 10 || n == 11 || n == 12 || n == 13 || n == 14 || n == 15;
  }

  lemma HexDigits(c: int)
    requires 0 <= c < 0x10000
    ensures 0 <= c / 4096 < 16
    ensures (c / 4096) * 4096 + (c / 256 % 16) * 256 + (c / 16 % 16) * 16 + c % 16 == c
  {
    assert c == c / 16 * 16 + c % 16;
    assert c / 16 == c / 256 * 16 + c / 16 % 16;
    assert c / 256 == c / 4096 * 16 + c / 256 % 16;
  }

  lemma HexRead(c: int, k: string)
    requires 0 <= c < 0x10000
    ensures ReadHex(UnicodeEscape(c) + k) == Some(c)
  {
    var text := UnicodeEscape(c) + k;
    assert text[0] == '\\' && text[1] == 'u' && text[2] == HexDigit(c / 4096) && text[3] == HexDigit(c / 256 % 16)
      && text[4] == HexDigit(c / 16 % 16) && text[5] == HexDigit(c % 16);
    HexRoundTrip(c / 4096);
    HexRoundTrip(c / 256 % 16);
    HexRoundTrip(c / 16 % 16);
    HexRoundTrip(c % 16);
    HexDigits(c);
  }

  predicate ShortEscape(c: char) {
    c == '"' || c == '\\' || c == '\n' || c == '\r' || c == '\t' || c == '\U{8}' || c == '\U{c}'
  }

  lemma ReadShort(c: char, k: string)
    requires ShortEscape(c)
    ensures |EscapeChar(c)| == 2 && EscapeChar(c)[0] == '\\'
    ensures ReadChar(EscapeChar(c) + k) == Some(Parsed(c, k))
  {
    assert (EscapeChar(c) + k)[2..] == k;
  }

  lemma ReadUnicode(c: char, k: string)
    requires c as int < 0xD800 && EscapeChar(c) == UnicodeEscape(c as int)
    ensures ReadChar(EscapeChar(c) + k) == Some(Parsed(c, k))
  {
    HexRead(c as int, k);
    assert (UnicodeEscape(c as int) + k)[6..] == k;
  }

  lemma ReadEscaped(c: char, k: string)
    ensures EscapeChar(c) != "" && (EscapeChar(c) + k)[0] != '"'
    ensures ReadChar(EscapeChar(c) + k) == Some(Parsed(c, k))
  {
    if ShortEscape(c) {
      ReadShort(c, k);
    } else if EscapeChar(c) == [c] {
      assert ([c] + k)[1..] == k;
    } else {
      ReadUnicode(c, k);
    }
  }

  lemma {:induction false} ReadPrintedChars(s: string, k: string)
    ensures ReadChars(PrintChars(s, "\"" + k)) == Some(Parsed(s, k))
    decreases |s|
  {
    if s != "" {
      ReadPrintedChars(s[1..], k);
      ReadEscaped(s[0], PrintChars(s[1..], "\"" + k));
      assert s == [s[0]] + s[1..];
    } else {
      assert ("\"" + k)[1..] == k;
    }
  }

  /** What may follow a value inside canonical text. Without it a number could run on. */
  predicate Delimited(k: string) {
    k == "" || k[0] == ',' || k[0] == ']' || k[0] == '}'
  }

  lemma {:induction false} RunEnds(t: string, k: string)
    requires (forall c :: c in t ==> NumberChar(c)) && Delimited(k)
    ensures NumberRun(t + k) == |t|
    decreases |t|
  {
    if t == "" {
      assert t + k == k;
    } else {
      assert t[0] in t && (t + k)[1..] == t[1..] + k;
      RunEnds(t[1..], k);
    }
  }

  lemma ReadNumber(t: string, k: string)
    requires ValidNumber(t) && Delimited(k)
    ensures ReadValue(t + k) == Some(Parsed(Num(t), k))
  {
    RunEnds(t, k);
    assert t[0] in t;
    assert (t + k)[..|t|] == t && (t + k)[|t|..] == k;
  }

  lemma ReadWord(word: string, v: Json, k: string)
    requires word != ""
    ensures ReadLiteral(word + k, word, v) == Some(Parsed(v, k))
  {
    assert (word + k)[|word|..] == k;
  }

  lemma {:induction false} FirstChar(v: Json, k: string)
    requires WellFormed(v)
    ensures Print(v, k) != "" && !IsWhite(Print(v, k)[0]) && Print(v, k)[0] != ']'
  {
    if v.Num? {
      assert v.text[0] in v.text;
    }
  }

  lemma ReadText(s: string, k: string)
    ensures ReadValue(PrintString(s, k)) == Some(Parsed(Str(s), k))
  {
    ReadPrintedChars(s, k);
    assert PrintString(s, k)[1..] == PrintChars(s, "\"" + k);
  }

  /** The prefix lemma: a printed value followed by a delimiter reads as that value, and leaves
      the delimiter. */
  lemma {:induction false} ReadPrinted(v: Json, k: string)
    requires WellFormed(v) && Delimited(k)
    ensures ReadValue(Print(v, k)) == Some(Parsed(v, k))
    decreases v, 1
  {
    match v
    case Null => ReadWord("null", Null, k);
    case Bool(b) => ReadWord(if b then "true" else "false", v, k);
    case Num(text) => ReadNumber(text, k);
    case Str(s) => ReadText(s, k);
    case Arr(items) => ReadArray(items, k);
    case Obj(members) => ReadObject(members, k);
  }

  lemma {:induction false} ReadArray(items: seq<Json>, k: string)
    requires WellFormed(Arr(items)) && Delimited(k)
    ensures ReadValue(Print(Arr(items), k)) == Some(Parsed(Arr(items), k))
    decreases items, 2
  {
    var text := Print(Arr(items), k);
    var inner := PrintItems(items, "]" + k);
    assert text[0] == '[' && text[1..] == inner;
    assert ("]" + k)[1..] == k;
    if |items| > 0 {
      FirstChar(items[0], if |items| == 1 then "]" + k else "," + PrintItems(items[1..], "]" + k));
      ReadPrintedItems(items, k);
    }
  }

  lemma {:induction false} ReadPrintedItems(items: seq<Json>, k: string)
    requires |items| > 0 && (forall i :: 0 <= i < |items| ==> WellFormed(items[i])) && Delimited(k)
    ensures ReadItems(PrintItems(items, "]" + k)) == Some(Parsed(items, k))
    decreases items, 0
  {
    if |items| == 1 {
      ReadPrinted(items[0], "]" + k);
      OneItem(items, k);
    } else {
      var more := "," + PrintItems(items[1..], "]" + k);
      ReadPrinted(items[0], more);
      ReadPrintedItems(items[1..], k);
      MoreItems(items, k, more);
    }
  }

  lemma OneItem(items: seq<Json>, k: string)
    requires |items| == 1 && ReadValue(Print(items[0], "]" + k)) == Some(Parsed(items[0], "]" + k))
    ensures ReadItems(PrintItems(items, "]" + k)) == Some(Parsed(items, k))
  {
    ItemStep(Print(items[0], "]" + k), items[0], "]" + k);
    AfterFirst("]", k);
    assert items == [items[0]];
  }

  lemma MoreItems(items: seq<Json>, k: string, more: string)
    requires |items| > 1 && more == "," + PrintItems(items[1..], "]" + k)
    requires ReadValue(Print(items[0], more)) == Some(Parsed(items[0], more))
    requires ReadItems(PrintItems(items[1..], "]" + k)) == Some(Parsed(items[1..], k))
    ensures ReadItems(PrintItems(items, "]" + k)) == Some(Parsed(items, k))
  {
    ItemStep(Print(items[0], more), items[0], more);
    AfterFirst(",", PrintItems(items[1..], "]" + k));
    HeadAndTail(items);
  }

  lemma AfterFirst(first: string, k: string)
    requires |first| == 1
    ensures (first + k)[1..] == k
  {
  }

  lemma AtText(t: string)
    requires t != "" && !IsWhite(t[0])
    ensures SkipWhite(t) == t
  {
  }

  /** One item of a text, and what that makes of the items that follow. */
  lemma ItemStep(text: string, v: Json, more: string)
    requires ReadValue(text) == Some(Parsed(v, more))
    requires more != "" && (more[0] == ']' || more[0] == ',')
    ensures ReadItems(text)
         == if more[0] == ']' then Some(Parsed([v], more[1..]))
            else var others := ReadItems(more[1..]);
                 if others.None? then None else Some(Parsed([v] + others.value.value, others.value.rest))
  {
    AtText(more);
  }

  lemma {:induction false} ReadObject(members: seq<Member>, k: string)
    requires WellFormed(Obj(members)) && Delimited(k)
    ensures ReadValue(Print(Obj(members), k)) == Some(Parsed(Obj(members), k))
    decreases members, 2
  {
    if |members| == 0 {
      assert Print(Obj(members), k) == "{" + ("}" + k);
      EmptyObject(k);
    } else {
      MembersHead(members, "}" + k);
      ReadPrintedMembers(members, k);
      ObjectStep(PrintMembers(members, "}" + k), members, k);
    }
  }

  lemma EmptyObject(k: string)
    ensures ReadValue("{" + ("}" + k)) == Some(Parsed(Obj([]), k))
  {
    assert ("{" + ("}" + k))[1..] == "}" + k;
    assert ("}" + k)[1..] == k;
  }

  lemma ObjectStep(inner: string, members: seq<Member>, k: string)
    requires inner != "" && inner[0] == '"' && ReadMembers(inner) == Some(Parsed(members, k))
    ensures ReadValue("{" + inner) == Some(Parsed(Obj(members), k))
  {
    AfterFirst("{", inner);
    AtText(inner);
    ReadBrace("{" + inner);
  }

  lemma ReadBrace(t: string)
    requires t != "" && t[0] == '{'
    ensures var u := SkipWhite(t[1..]);
            ReadValue(t)
              == if u != "" && u[0] == '}' then Some(Parsed(Obj([]), u[1..]))
                 else var members := ReadMembers(u);
                      if members.None? then None else Some(Parsed(Obj(members.value.value), members.value.rest))
  {
    AtText(t);
  }

  lemma {:induction false} ReadPrintedMembers(members: seq<Member>, k: string)
    requires |members| > 0 && NoRepeats(Keys(members))
    requires (forall i :: 0 <= i < |members| ==> WellFormed(members[i].value)) && Delimited(k)
    ensures ReadMembers(PrintMembers(members, "}" + k)) == Some(Parsed(members, k))
    decreases members, 0
  {
    if |members| == 1 {
      ReadPrinted(members[0].value, "}" + k);
      OneMember(members, k);
    } else {
      var more := "," + PrintMembers(members[1..], "}" + k);
      ReadPrinted(members[0].value, more);
      TailKeys(members);
      ReadPrintedMembers(members[1..], k);
      MoreMembers(members, k, more);
    }
  }

  lemma OneMember(members: seq<Member>, k: string)
    requires |members| == 1
    requires ReadValue(Print(members[0].value, "}" + k)) == Some(Parsed(members[0].value, "}" + k))
    ensures ReadMembers(PrintMembers(members, "}" + k)) == Some(Parsed(members, k))
  {
    ReadHead(members, "}" + k, "}" + k);
    AfterFirst("}", k);
    assert members == [members[0]];
  }

  lemma MoreMembers(members: seq<Member>, k: string, more: string)
    requires |members| > 1 && more == "," + PrintMembers(members[1..], "}" + k)
    requires forall i :: 0 <= i < |members[1..]| ==> members[1..][i].key != members[0].key
    requires ReadValue(Print(members[0].value, more)) == Some(Parsed(members[0].value, more))
    requires ReadMembers(PrintMembers(members[1..], "}" + k)) == Some(Parsed(members[1..], k))
    ensures ReadMembers(PrintMembers(members, "}" + k)) == Some(Parsed(members, k))
  {
    ReadHead(members, "}" + k, more);
    AfterFirst(",", PrintMembers(members[1..], "}" + k));
    PutFresh(members);
  }

  lemma ReadHead(members: seq<Member>, close: string, more: string)
    requires |members| > 0 && close != "" && close[0] == '}'
    requires more == if |members| == 1 then close else "," + PrintMembers(members[1..], close)
    requires ReadValue(Print(members[0].value, more)) == Some(Parsed(members[0].value, more))
    ensures ReadMembers(PrintMembers(members, close))
         == if more[0] == '}' then Some(Parsed([members[0]], more[1..]))
            else var others := ReadMembers(more[1..]);
                 if others.None? then None
                 else Some(Parsed(PutMember(members[0], others.value.value), others.value.rest))
  {
    var value := Print(members[0].value, more);
    ReadPrintedChars(members[0].key, ":" + value);
    MembersHead(members, close);
    MemberStep(PrintMembers(members, close), members[0], value, more);
  }

  lemma PutFresh(members: seq<Member>)
    requires |members| > 0 && forall i :: 0 <= i < |members[1..]| ==> members[1..][i].key != members[0].key
    ensures PutMember(members[0], members[1..]) == members
  {
    assert members == [members[0]] + members[1..];
  }

  /** One member of a text, and what that makes of the members that follow. */
  lemma MemberStep(text: string, m: Member, value: string, more: string)
    requires text != "" && text[0] == '"' && ReadChars(text[1..]) == Some(Parsed(m.key, ":" + value))
    requires ReadValue(value) == Some(Parsed(m.value, more))
    requires more != "" && (more[0] == '}' || more[0] == ',')
    ensures ReadMembers(text)
         == if more[0] == '}' then Some(Parsed([m], more[1..]))
            else var others := ReadMembers(more[1..]);
                 if others.None? then None else Some(Parsed(PutMember(m, others.value.value), others.value.rest))
  {
    assert (":" + value)[1..] == value;
    AtText(text);
    AtText(":" + value);
    AtText(more);
  }

  lemma MembersHead(members: seq<Member>, k: string)
    requires |members| > 0
    ensures var m, text := members[0], PrintMembers(members, k);
            var more := if |members| == 1 then k else "," + PrintMembers(members[1..], k);
            text[0] == '"' && text[1..] == PrintChars(m.key, "\"" + (":" + Print(m.value, more)))
  {
  }

  lemma TailKeys(members: seq<Member>)
    requires |members| > 0 && NoRepeats(Keys(members))
    ensures NoRepeats(Keys(members[1..]))
    ensures forall i :: 0 <= i < |members[1..]| ==> members[1..][i].key != members[0].key
  {
    assert Keys(members)[1..] == Keys(members[1..]);
    forall i | 0 <= i < |members[1..]|
      ensures members[1..][i].key != members[0].key
    {
      assert Keys(members)[0] != Keys(members)[i + 1];
    }
  }

  // ---- sorting members ------------------------------------------------------------------------

  lemma TailSorted(members: seq<Member>)
    requires |members| > 0 && StrictlySorted(Keys(members))
    ensures StrictlySorted(Keys(members[1..]))
  {
    SortedTail(Keys(members));
    assert Keys(members)[1..] == Keys(members[1..]);
  }

  lemma {:induction false} Inserted(m: Member, sorted: seq<Member>)
    requires StrictlySorted(Keys(sorted)) && m.key !in Keys(sorted)
    ensures StrictlySorted(Keys(InsertMember(m, sorted)))
    ensures forall x :: x in InsertMember(m, sorted) <==> x == m || x in sorted
    ensures |InsertMember(m, sorted)| == |sorted| + 1
    decreases |sorted|
  {
    var r := InsertMember(m, sorted);
    if |sorted| == 0 || Less(m.key, sorted[0].key) {
      forall i, j | 0 <= i < j < |r|
        ensures Less(Keys(r)[i], Keys(r)[j])
      {
        if i > 0 {
          assert Less(Keys(sorted)[i - 1], Keys(sorted)[j - 1]);
        } else if j > 1 {
          assert Less(Keys(sorted)[0], Keys(sorted)[j - 1]);
          LessTransitive(m.key, sorted[0].key, sorted[j - 1].key);
        }
      }
    } else {
      assert Less(sorted[0].key, m.key) && m.key !in Keys(sorted[1..]) by {
        Unequal(m, sorted);
      }
      TailSorted(sorted);
      Inserted(m, sorted[1..]);
      InsertedAfter(m, sorted, InsertMember(m, sorted[1..]));
      HeadAndTail(sorted);
    }
  }

  lemma Unequal(m: Member, sorted: seq<Member>)
    requires |sorted| > 0 && m.key !in Keys(sorted) && !Less(m.key, sorted[0].key)
    ensures Less(sorted[0].key, m.key) && m.key !in Keys(sorted[1..])
  {
    assert Keys(sorted)[1..] == Keys(sorted[1..]);
    assert Keys(sorted)[0] in Keys(sorted);
    LessTotal(m.key, sorted[0].key);
  }

  lemma InsertedAfter(m: Member, sorted: seq<Member>, tail: seq<Member>)
    requires |sorted| > 0 && StrictlySorted(Keys(sorted)) && Less(sorted[0].key, m.key)
    requires StrictlySorted(Keys(tail)) && forall x :: x in tail <==> x == m || x in sorted[1..]
    ensures StrictlySorted(Keys([sorted[0]] + tail))
  {
    forall j | 0 <= j < |tail|
      ensures Less(sorted[0].key, tail[j].key)
    {
      assert tail[j] in tail;
      if tail[j] != m {
        var t :| 0 <= t < |sorted[1..]| && sorted[1..][t] == tail[j];
        assert Less(Keys(sorted)[0], Keys(sorted)[t + 1]);
      }
    }
    Prepended(sorted[0], tail);
  }

  lemma Prepended(m: Member, tail: seq<Member>)
    requires StrictlySorted(Keys(tail)) && forall j :: 0 <= j < |tail| ==> Less(m.key, tail[j].key)
    ensures StrictlySorted(Keys([m] + tail))
  {
    var r := [m] + tail;
    forall i, j | 0 <= i < j < |r|
      ensures Less(Keys(r)[i], Keys(r)[j])
    {
      if i > 0 {
        assert Less(Keys(tail)[i - 1], Keys(tail)[j - 1]);
      }
    }
  }

  lemma {:induction false} Sorted(members: seq<Member>)
    requires NoRepeats(Keys(members))
    ensures StrictlySorted(Keys(SortMembers(members)))
    ensures forall x :: x in SortMembers(members) <==> x in members
    ensures |SortMembers(members)| == |members|
    decreases |members|
  {
    if |members| > 0 {
      var rest := members[1..];
      assert Keys(rest) == Keys(members)[1..];
      Sorted(rest);
      forall i | 0 <= i < |SortMembers(rest)|
        ensures SortMembers(rest)[i].key != members[0].key
      {
        assert SortMembers(rest)[i] in rest;
        var t :| 0 <= t < |rest| && rest[t] == SortMembers(rest)[i];
        assert Keys(members)[0] != Keys(members)[t + 1];
      }
      assert members[0].key !in Keys(SortMembers(rest));
      Inserted(members[0], SortMembers(rest));
      assert members == [members[0]] + rest;
    }
  }

  lemma {:induction false} SortedAlready(members: seq<Member>)
    requires StrictlySorted(Keys(members))
    ensures SortMembers(members) == members
    decreases |members|
  {
    if |members| > 0 {
      TailSorted(members);
      SortedAlready(members[1..]);
      if |members| > 1 {
        assert Less(Keys(members)[0], Keys(members)[1]);
      }
      assert members == [members[0]] + members[1..];
    }
  }

  lemma {:induction false} CanonMembersAt(members: seq<Member>, i: nat, floats: Floats)
    requires i < |members|
    ensures CanonMembers(members, floats)[i] == Member(members[i].key, Canon(members[i].value, floats))
    decreases i
  {
    if i > 0 {
      CanonMembersAt(members[1..], i - 1, floats);
    }
  }

  lemma {:induction false} CanonItemsAt(items: seq<Json>, i: nat, floats: Floats)
    requires i < |items|
    ensures CanonItems(items, floats)[i] == Canon(items[i], floats)
    decreases i
  {
    if i > 0 {
      CanonItemsAt(items[1..], i - 1, floats);
    }
  }

  lemma CanonKeys(members: seq<Member>, floats: Floats)
    ensures Keys(CanonMembers(members, floats)) == Keys(members)
  {
    forall i | 0 <= i < |members|
      ensures Keys(CanonMembers(members, floats))[i] == Keys(members)[i]
    {
      CanonMembersAt(members, i, floats);
    }
  }

  /** The canonical form is canonical. */
  lemma {:induction false} CanonIsTidy(v: Json, floats: Floats)
    requires LawfulFloats(floats) && WellFormed(v) && Printable(v, floats)
    ensures Tidy(Canon(v, floats), floats)
    decreases v
  {
    match v
    case Arr(items) =>
      forall i | 0 <= i < |items|
        ensures Tidy(CanonItems(items, floats)[i], floats)
      {
        CanonIsTidy(items[i], floats);
        CanonItemsAt(items, i, floats);
      }
    case Obj(members) =>
      var canon := CanonMembers(members, floats);
      CanonKeys(members, floats);
      Sorted(canon);
      forall i | 0 <= i < |members|
        ensures Tidy(canon[i].value, floats)
      {
        CanonIsTidy(members[i].value, floats);
        CanonMembersAt(members, i, floats);
      }
      forall i | 0 <= i < |SortMembers(canon)|
        ensures Tidy(SortMembers(canon)[i].value, floats)
      {
        assert SortMembers(canon)[i] in canon;
      }
    case _ =>
  }

  lemma {:induction false} TidyIsWellFormed(v: Json, floats: Floats)
    requires Tidy(v, floats)
    ensures WellFormed(v) && Printable(v, floats)
    decreases v
  {
    match v
    case Arr(items) =>
      forall i | 0 <= i < |items|
        ensures WellFormed(items[i]) && Printable(items[i], floats)
      {
        TidyIsWellFormed(items[i], floats);
      }
    case Obj(members) =>
      SortedKeysDiffer(members);
      forall i | 0 <= i < |members|
        ensures WellFormed(members[i].value) && Printable(members[i].value, floats)
      {
        TidyIsWellFormed(members[i].value, floats);
      }
    case _ =>
  }

  lemma SortedKeysDiffer(members: seq<Member>)
    requires StrictlySorted(Keys(members))
    ensures NoRepeats(Keys(members))
  {
    forall i, j | 0 <= i < j < |members|
      ensures Keys(members)[i] != Keys(members)[j]
    {
      LessTotal(Keys(members)[i], Keys(members)[j]);
    }
  }

  /** A canonical value is its own canonical form. */
  lemma {:induction false} TidyIsCanon(v: Json, floats: Floats)
    requires Tidy(v, floats)
    ensures Canon(v, floats) == v
    decreases v
  {
    match v
    case Arr(items) =>
      forall i | 0 <= i < |items|
        ensures CanonItems(items, floats)[i] == items[i]
      {
        TidyIsCanon(items[i], floats);
        CanonItemsAt(items, i, floats);
      }
    case Obj(members) =>
      forall i | 0 <= i < |members|
        ensures CanonMembers(members, floats)[i] == members[i]
      {
        TidyIsCanon(members[i].value, floats);
        CanonMembersAt(members, i, floats);
      }
      assert CanonMembers(members, floats) == members;
      SortedAlready(members);
    case _ =>
  }

  /** Reading canonical bytes gives the canonical value, and printing that gives the same bytes. */
  lemma ReprintIsIdentity(v: Json, floats: Floats)
    requires LawfulFloats(floats) && WellFormed(v) && Printable(v, floats)
    ensures Decode(Encode(v, floats)) == Some(Canon(v, floats))
    ensures Encode(Decode(Encode(v, floats)).value, floats) == Encode(v, floats)
  {
    CanonIsTidy(v, floats);
    TidyIsWellFormed(Canon(v, floats), floats);
    ReadPrinted(Canon(v, floats), "");
    TidyIsCanon(Canon(v, floats), floats);
  }

  // ---- the same value -------------------------------------------------------------------------

  /** Equal up to the order of keys, at any depth, and the writing of numbers. */
  ghost predicate Same(a: Json, b: Json, floats: Floats)
    decreases a
  {
    match a
    case Num(x) => b.Num? && NormalizeNumber(x, floats) == NormalizeNumber(b.text, floats)
    case Arr(xs) => b.Arr? && |xs| == |b.items| && forall i :: 0 <= i < |xs| ==> Same(xs[i], b.items[i], floats)
    case Obj(ms) =>
      b.Obj? && (forall k :: k in Keys(ms) <==> k in Keys(b.members))
      && forall i, j :: 0 <= i < |ms| && 0 <= j < |b.members| ==>
           ms[i].key == b.members[j].key ==> Same(ms[i].value, b.members[j].value, floats)
    case _ => a == b
  }

  lemma {:induction false} SameIffCanon(a: Json, b: Json, floats: Floats)
    requires WellFormed(a) && WellFormed(b) && Printable(a, floats) && Printable(b, floats)
    ensures Same(a, b, floats) <==> Canon(a, floats) == Canon(b, floats)
    decreases a
  {
    if a.Arr? && b.Arr? && |a.items| == |b.items| {
      forall i | 0 <= i < |a.items|
        ensures Same(a.items[i], b.items[i], floats)
           <==> CanonItems(a.items, floats)[i] == CanonItems(b.items, floats)[i]
      {
        SameIffCanon(a.items[i], b.items[i], floats);
        CanonItemsAt(a.items, i, floats);
        CanonItemsAt(b.items, i, floats);
      }
    } else if a.Obj? && b.Obj? {
      forall i, j | 0 <= i < |a.members| && 0 <= j < |b.members|
        ensures Same(a.members[i].value, b.members[j].value, floats)
           <==> Canon(a.members[i].value, floats) == Canon(b.members[j].value, floats)
      {
        SameIffCanon(a.members[i].value, b.members[j].value, floats);
      }
      SameMembers(a.members, b.members, floats);
    }
  }

  /** Values match wherever keys do. */
  ghost predicate Agree(a: seq<Member>, b: seq<Member>) {
    && (forall k :: k in Keys(a) <==> k in Keys(b))
    && (forall i, j :: 0 <= i < |a| && 0 <= j < |b| ==> a[i].key == b[j].key ==> a[i].value == b[j].value)
  }

  /** Lists without repeated keys sort alike exactly when they agree. */
  lemma SortAlike(a: seq<Member>, b: seq<Member>)
    requires NoRepeats(Keys(a)) && NoRepeats(Keys(b))
    ensures SortMembers(a) == SortMembers(b) <==> Agree(a, b)
  {
    Sorted(a);
    Sorted(b);
    var x, y := SortMembers(a), SortMembers(b);
    SameKeys(x, a);
    SameKeys(y, b);
    if x == y {
      forall i, j | 0 <= i < |a| && 0 <= j < |b| && a[i].key == b[j].key
        ensures a[i].value == b[j].value
      {
        assert a[i] in x && b[j] in y;
        var s :| 0 <= s < |x| && x[s] == a[i];
        var t :| 0 <= t < |x| && x[t] == b[j];
        SortedOnce(x, s, t);
      }
    }
    if Agree(a, b) {
      SortedListingUnique(Keys(x), Keys(y));
      forall t | 0 <= t < |x|
        ensures x[t] == y[t]
      {
        assert Keys(x)[t] == Keys(y)[t];
        assert x[t] in a && y[t] in b;
        var i :| 0 <= i < |a| && a[i] == x[t];
        var j :| 0 <= j < |b| && b[j] == y[t];
        assert a[i].key == b[j].key;
      }
    }
  }

  lemma SortedOnce(x: seq<Member>, s: nat, t: nat)
    requires StrictlySorted(Keys(x)) && s < |x| && t < |x| && x[s].key == x[t].key
    ensures s == t
  {
    var keys := Keys(x);
    assert keys[s] == keys[t];
    LessTotal(keys[s], keys[s]);
  }

  lemma SameKeys(x: seq<Member>, a: seq<Member>)
    requires forall m :: m in x <==> m in a
    ensures forall k :: k in Keys(x) <==> k in Keys(a)
  {
    forall k
      ensures k in Keys(x) <==> k in Keys(a)
    {
      if k in Keys(x) {
        var i :| 0 <= i < |x| && Keys(x)[i] == k;
        assert x[i] in a;
        var j :| 0 <= j < |a| && a[j] == x[i];
        assert Keys(a)[j] == k;
      }
      if k in Keys(a) {
        var i :| 0 <= i < |a| && Keys(a)[i] == k;
        assert a[i] in x;
        var j :| 0 <= j < |x| && x[j] == a[i];
        assert Keys(x)[j] == k;
      }
    }
  }

  lemma SameMembers(a: seq<Member>, b: seq<Member>, floats: Floats)
    requires NoRepeats(Keys(a)) && NoRepeats(Keys(b))
    requires forall i, j :: 0 <= i < |a| && 0 <= j < |b| ==>
               (Same(a[i].value, b[j].value, floats) <==> Canon(a[i].value, floats) == Canon(b[j].value, floats))
    ensures Same(Obj(a), Obj(b), floats)
       <==> SortMembers(CanonMembers(a, floats)) == SortMembers(CanonMembers(b, floats))
  {
    var ca, cb := CanonMembers(a, floats), CanonMembers(b, floats);
    CanonKeys(a, floats);
    CanonKeys(b, floats);
    SortAlike(ca, cb);
    forall i, j | 0 <= i < |a| && 0 <= j < |b|
      ensures ca[i].key == a[i].key && cb[j].key == b[j].key
      ensures ca[i].value == cb[j].value <==> Same(a[i].value, b[j].value, floats)
    {
      CanonMembersAt(a, i, floats);
      CanonMembersAt(b, j, floats);
    }
    AgreeWhenSame(a, b, ca, cb, floats);
  }

  lemma AgreeWhenSame(a: seq<Member>, b: seq<Member>, ca: seq<Member>, cb: seq<Member>, floats: Floats)
    requires Keys(ca) == Keys(a) && Keys(cb) == Keys(b)
    requires forall i, j :: 0 <= i < |a| && 0 <= j < |b| ==>
               ca[i].key == a[i].key && cb[j].key == b[j].key
               && (ca[i].value == cb[j].value <==> Same(a[i].value, b[j].value, floats))
    ensures Same(Obj(a), Obj(b), floats) <==> Agree(ca, cb)
  {
    assert |ca| == |a| && |cb| == |b|;
  }

  /** Canonical printing is unambiguous: the same bytes exactly for the same value. */
  lemma SameBytesIffSameValue(a: Json, b: Json, floats: Floats)
    requires LawfulFloats(floats) && WellFormed(a) && WellFormed(b) && Printable(a, floats) && Printable(b, floats)
    ensures Encode(a, floats) == Encode(b, floats) <==> Same(a, b, floats)
  {
    ReprintIsIdentity(a, floats);
    ReprintIsIdentity(b, floats);
    SameIffCanon(a, b, floats);
  }

  // ---- whatever reads is well formed ----------------------------------------------------------

  /** What the reader yields has proper numbers and no repeated keys, whatever the text. */
  lemma {:induction false} ReadIsWellFormed(s: string)
    ensures ReadValue(s).Some? ==> WellFormed(ReadValue(s).value.value)
    decreases |s|, 1
  {
    var t := SkipWhite(s);
    if t != "" && t[0] == '[' {
      ReadItemsAreWellFormed(SkipWhite(t[1..]));
    } else if t != "" && t[0] == '{' {
      ReadMembersAreWellFormed(SkipWhite(t[1..]));
    }
  }

  lemma {:induction false} ReadItemsAreWellFormed(s: string)
    ensures ReadItems(s).Some? ==>
      forall i :: 0 <= i < |ReadItems(s).value.value| ==> WellFormed(ReadItems(s).value.value[i])
    decreases |s|, 2
  {
    ReadIsWellFormed(s);
    var first := ReadValue(s);
    if first.Some? {
      var t := SkipWhite(first.value.rest);
      if t != "" && t[0] == ',' {
        ReadItemsAreWellFormed(t[1..]);
      }
    }
  }

  lemma {:induction false} ReadMembersAreWellFormed(s: string)
    ensures ReadMembers(s).Some? ==> WellFormed(Obj(ReadMembers(s).value.value))
    decreases |s|, 2
  {
    var r := ReadMembers(s);
    if r.Some? {
      var key := ReadChars(SkipWhite(s)[1..]).value;
      var value := SkipWhite(key.rest)[1..];
      ReadIsWellFormed(value);
      var m := Member(key.value, ReadValue(value).value.value);
      var w := SkipWhite(ReadValue(value).value.rest);
      if w[0] == ',' {
        ReadMembersAreWellFormed(w[1..]);
        PutIsWellFormed(m, ReadMembers(w[1..]).value.value);
      } else {
        assert r.value.value == [m];
      }
    }
  }

  lemma PutIsWellFormed(m: Member, rest: seq<Member>)
    requires WellFormed(m.value) && WellFormed(Obj(rest))
    ensures WellFormed(Obj(PutMember(m, rest)))
  {
    var put := PutMember(m, rest);
    if put != rest {
      forall i, j | 0 <= i < j < |put|
        ensures Keys(put)[i] != Keys(put)[j]
      {
        assert i > 0 ==> Keys(put)[i] == Keys(rest)[i - 1];
        assert Keys(put)[j] == Keys(rest)[j - 1];
      }
    }
  }
}
