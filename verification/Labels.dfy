/** net/conn/addr.go: data-channel labels, printed and parsed; and net/conn/peer.go's dispatch on them. */
module Labels {
  import opened Options
  import opened Decimal

  const U64: int := 0x1_0000_0000_0000_0000

  type uint64 = x: int | 0 <= x < U64

  datatype Label = Label(channelType: string, index: uint64)

  predicate Known(t: string) {
    t == "keepalive" || t == "command" || t == "web" || t == "proxy" || t == "ssh" || t == "file"
  }

  /** ChannelType.String */
  function TypeName(t: string): string {
    if Known(t) then t else "unknown"
  }

  /** Label.String: %s goes through ChannelType.String. */
  function Print(l: Label): string {
    TypeName(l.channelType) + ":" + Dec(l.index)
  }

  /** strings.Split */
  function Split(s: string, sep: char): (parts: seq<string>)
    ensures |parts| >= 1
  {
    if s == [] then [[]]
    else
      var rest := Split(s[1..], sep);
      if s[0] == sep then [[]] + rest else [[s[0]] + rest[0]] + rest[1..]
  }

  datatype Parsed = Ok(value: Label) | NotTwoParts | BadIndex

  /** uint64(idx) of an int. */
  function ToUint64(v: int): uint64
    requires -U64 < v < U64
  {
    if v < 0 then v + U64 else v
  }

  /** parseLabel */
  function Parse(s: string, p: Platform): Parsed {
    var parts := Split(s, ':');
    if |parts| != 2 then NotTwoParts
    else
      var idx := Atoi(parts[1], p);
      if idx.None? then BadIndex else Ok(Label(parts[0], ToUint64(idx.value)))
  }

  lemma {:induction false} SplitNone(s: string, sep: char)
    requires sep !in s
    ensures Split(s, sep) == [s]
  {
    if s != [] {
      SplitNone(s[1..], sep);
      assert [s[0]] + s[1..] == s;
    }
  }

  lemma {:induction false} SplitOne(a: string, b: string, sep: char)
    requires sep !in a && sep !in b
    ensures Split(a + [sep] + b, sep) == [a, b]
  {
    var s := a + [sep] + b;
    if a == [] {
      SplitNone(b, sep);
      assert s[1..] == b;
    } else {
      SplitOne(a[1..], b, sep);
      assert s[1..] == a[1..] + [sep] + b;
      assert [a[0]] + a[1..] == a;
    }
  }

  /** What is split into two parts is those parts with the separator between them. */
  lemma {:induction false} SplitTwo(s: string, sep: char)
    requires |Split(s, sep)| <= 2
    ensures var parts := Split(s, sep);
            s == (if |parts| == 1 then parts[0] else parts[0] + [sep] + parts[1])
            && forall i :: 0 <= i < |parts| ==> sep !in parts[i]
  {
    if s != [] {
      SplitTwo(s[1..], sep);
      assert s == [s[0]] + s[1..];
    }
  }

  lemma TypeNameHasNoColon(t: string)
    ensures ':' !in TypeName(t)
  {
    var n := TypeName(t);
    assert n == "keepalive" || n == "command" || n == "web" || n == "proxy" || n == "ssh" || n == "file" || n == "unknown";
  }

  lemma SplitPrinted(l: Label)
    ensures Split(Print(l), ':') == [TypeName(l.channelType), Dec(l.index)]
  {
    TypeNameHasNoColon(l.channelType);
    DecIsCanonical(l.index);
    SplitOne(TypeName(l.channelType), Dec(l.index), ':');
  }

  /**
    The codec's exact bound: a printed label parses back to itself exactly when its index fits the
    platform's int and its type prints as itself; above the bound parsing fails.
   */
  lemma LabelRoundTrip(l: Label, p: Platform)
    ensures Parse(Print(l), p) == Ok(l) <==> l.index < IntLimit(p) && TypeName(l.channelType) == l.channelType
    ensures Parse(Print(l), p) == BadIndex <==> l.index >= IntLimit(p)
  {
    SplitPrinted(l);
    AtoiOfDec(l.index, p);
  }

  /** The six types of the program print as themselves, and nothing else does but "unknown". */
  lemma KnownTypesRoundTrip(t: string, i: uint64, p: Platform)
    ensures (t == "keepalive" || t == "command" || t == "web" || t == "proxy" || t == "ssh" || t == "file") ==>
              && Print(Label(t, i)) == t + ":" + Dec(i)
              && (i < IntLimit(p) ==> Parse(Print(Label(t, i)), p) == Ok(Label(t, i)))
    ensures !(t == "keepalive" || t == "command" || t == "web" || t == "proxy" || t == "ssh" || t == "file") ==>
              && Print(Label(t, i)) == "unknown:" + Dec(i)
              && (i < IntLimit(p) ==> Parse(Print(Label(t, i)), p) == Ok(Label("unknown", i)))
  {
    assert "unknown" + ":" == "unknown:";
    SplitPrinted(Label(t, i));
    AtoiOfDec(i, p);
  }

  /** Exactly what parses: two parts around one colon, the second a number that fits the platform's int. */
  lemma ParsesExactlyWhen(s: string, p: Platform)
    ensures Parse(s, p).Ok? <==>
              exists t: string, d: string :: s == t + [':'] + d && ':' !in t && ':' !in d && Atoi(d, p).Some?
    ensures Parse(s, p).Ok? ==>
              var parts := Split(s, ':');
              |parts| == 2 && s == parts[0] + [':'] + parts[1] && Parse(s, p).value.channelType == parts[0]
  {
    var parts := Split(s, ':');
    if |parts| <= 2 {
      SplitTwo(s, ':');
    }
    if Parse(s, p).Ok? {
      assert s == parts[0] + [':'] + parts[1];
    }
    if t: string, d: string :| s == t + [':'] + d && ':' !in t && ':' !in d && Atoi(d, p).Some? {
      SplitOne(t, d, ':');
    }
  }

  /** A negative index is accepted too, and wraps. */
  lemma NegativeIndexWraps()
    ensures Parse("web" + [':'] + "-7", W64) == Ok(Label("web", 0xFFFF_FFFF_FFFF_FFF9))
  {
    assert Unsigned("-7") == "7" && "7"[..0] == "" && Value("7") == 7;
    assert Atoi("-7", W64) == Some(-7);
    ParseParts("web", "-7", W64);
  }

  /** The first index that is printed and not parsed, on either platform. */
  lemma BigIndexFails()
    ensures Parse(Print(Label("web", 0x8000_0000_0000_0000)), W64) == BadIndex
    ensures Parse(Print(Label("web", 0x7FFF_FFFF_FFFF_FFFF)), W64) == Ok(Label("web", 0x7FFF_FFFF_FFFF_FFFF))
    ensures Parse(Print(Label("web", 0x8000_0000)), W32) == BadIndex
    ensures Parse(Print(Label("web", 0x7FFF_FFFF)), W32) == Ok(Label("web", 0x7FFF_FFFF))
  {
    LabelRoundTrip(Label("web", 0x8000_0000_0000_0000), W64);
    LabelRoundTrip(Label("web", 0x7FFF_FFFF_FFFF_FFFF), W64);
    LabelRoundTrip(Label("web", 0x8000_0000), W32);
    LabelRoundTrip(Label("web", 0x7FFF_FFFF), W32);
  }

  /** Printing tells indexes apart for all types, and whole labels apart for the known ones. */
  lemma PrintInjective(a: Label, b: Label)
    requires Print(a) == Print(b)
    ensures a.index == b.index && TypeName(a.channelType) == TypeName(b.channelType)
    ensures Known(a.channelType) && Known(b.channelType) ==> a == b
  {
    SplitPrinted(a);
    SplitPrinted(b);
    DecInjective(a.index, b.index);
  }

  /** The form Print produces: a type name, a colon, and a number without sign or leading zero. */
  predicate CanonicalLabel(s: string) {
    var parts := Split(s, ':');
    |parts| == 2 && TypeName(parts[0]) == parts[0] && Canonical(parts[1])
  }

  /**
    The other direction: a label that parses is printed back as it was exactly when it was in
    canonical form. A sign or leading zeros parse as well.
   */
  lemma PrintOfParsed(s: string, p: Platform)
    requires Parse(s, p).Ok?
    ensures Print(Parse(s, p).value) == s <==> CanonicalLabel(s)
  {
    var l := Parse(s, p).value;
    var parts := Split(s, ':');
    SplitTwo(s, ':');
    SplitPrinted(l);
    DecIsCanonical(l.index);
    assert ":" == [':'];
    if CanonicalLabel(s) {
      assert IsDigit(parts[1][0]);
      assert Unsigned(parts[1]) == parts[1];
      CanonicalIsDec(parts[1]);
    }
  }

  lemma ParseParts(t: string, d: string, p: Platform)
    requires ':' !in t && ':' !in d
    ensures Parse(t + [':'] + d, p) == var v := Atoi(d, p); if v.None? then BadIndex else Ok(Label(t, ToUint64(v.value)))
  {
    SplitOne(t, d, ':');
  }

  lemma AtoiOfPlusSeven()
    ensures Atoi("+7", W64) == Some(7)
  {
    assert Unsigned("+7") == "7";
    assert "7"[..0] == "";
    assert Value("7") == 7;
  }

  /** A label that parses without being canonical: it is taken for the channel label web:7. */
  lemma SloppyLabelParses()
    ensures Parse("web" + [':'] + "+7", W64) == Ok(Label("web", 7)) && !CanonicalLabel("web" + [':'] + "+7")
  {
    AtoiOfPlusSeven();
    ParseParts("web", "+7", W64);
    SplitOne("web", "+7", ':');
    assert !IsDigit("+7"[0]);
  }

  // ---------- Dispatch ----------

  datatype Route = ToKeepalive | ToCommand | ToPool

  /** Peer.handleChannel: the whole label decides. */
  function Dispatch(name: string): Route {
    if name == "keepalive" then ToKeepalive
    else if name == "command" then ToCommand
    else ToPool
  }

  /** The two names that are not labels go to their loops, and nothing else does. */
  lemma DispatchExactlyWhen(name: string)
    ensures Dispatch(name) == ToKeepalive <==> name == "keepalive"
    ensures Dispatch(name) == ToCommand <==> name == "command"
    ensures Dispatch(name) == ToPool <==> name != "keepalive" && name != "command"
  {
  }

  /** Every printed label, of whatever type, goes to the pool. */
  lemma PrintedGoesToPool(l: Label)
    ensures Dispatch(Print(l)) == ToPool
  {
    assert Print(l)[|TypeName(l.channelType)|] == ':';
  }
}
