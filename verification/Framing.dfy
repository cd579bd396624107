/** The byte streams that are hashed, and how to read them back.
    Nothing is claimed about the hash itself: what differs here
    is what the hash is given a chance to tell apart. */
module Framing {
  import opened Encoding
  import opened Texts
  import opened Wrappers

  predicate AreBytes(b: Bytes) {
    forall i | 0 <= i < |b| :: 0 <= b[i] < 256
  }

  // Lengths in big-endian form

  function Limit(width: int): (r: int)
    ensures r >= 1
    decreases width
  {
    if width <= 0 then 1 else 256 * Limit(width - 1)
  }

  function BigEndian(n: int, width: int): (r: Bytes)
    ensures |r| == if width <= 0 then 0 else width
    decreases width
  {
    if width <= 0 then [] else BigEndian(n / 256, width - 1) + [n % 256]
  }

  function FromBigEndian(b: Bytes): int {
    if b == [] then 0 else FromBigEndian(b[..|b| - 1]) * 256 + b[|b| - 1]
  }

  lemma {:induction false} NumberRoundTrip(n: int, width: int)
    requires 0 <= n < Limit(width)
    ensures FromBigEndian(BigEndian(n, width)) == n && AreBytes(BigEndian(n, width))
  {
    if width > 0 {
      var high := BigEndian(n / 256, width - 1);
      NumberRoundTrip(n / 256, width - 1);
      assert (high + [n % 256])[..|high|] == high;
    }
  }

  lemma {:induction false} BytesRoundTrip(b: Bytes)
    requires AreBytes(b)
    ensures 0 <= FromBigEndian(b) < Limit(|b|) && BigEndian(FromBigEndian(b), |b|) == b
  {
    if b != [] {
      var high, last := b[..|b| - 1], b[|b| - 1];
      BytesRoundTrip(high);
      assert b == high + [last];
      assert (FromBigEndian(high) * 256 + last) / 256 == FromBigEndian(high);
    }
  }

  /** The first byte counts most. */
  lemma {:induction false} FirstByteCountsMost(b: Bytes)
    requires b != []
    ensures FromBigEndian(b) == b[0] * Limit(|b| - 1) + FromBigEndian(b[1..])
  {
    var n := |b| - 1;
    if n == 0 {
      assert b[..0] == [] && FromBigEndian(b[..0]) == 0;
    } else {
      var high := b[..n];
      FirstByteCountsMost(high);
      assert high[1..] == b[1..][..n - 1] && b[1..][n - 1] == b[n];
      Shifted(b[0], Limit(n - 1), FromBigEndian(high[1..]), b[n]);
    }
  }

  lemma {:induction false} Shifted(x: int, limit: int, rest: int, last: int)
    ensures (x * limit + rest) * 256 + last == x * (256 * limit) + (rest * 256 + last)
  {
    var y := x * limit;
    assert x * (256 * limit) == 256 * y;
  }

  // A length and that many bytes

  function Frame(b: Bytes, width: int): Bytes {
    BigEndian(|b|, width) + b
  }

  /** Takes one frame off the front. */
  function Unframe(s: Bytes, width: int): (r: Option<(Bytes, Bytes)>)
    requires width >= 1
    ensures r.Some? ==> |r.value.1| < |s|
  {
    if |s| < width then None
    else
      var n := FromBigEndian(s[..width]);
      if n < 0 || |s| - width < n then None else Some((s[width..width + n], s[width + n..]))
  }

  lemma {:induction false} UnframeFrame(b: Bytes, width: int, rest: Bytes)
    requires width >= 1 && |b| < Limit(width)
    ensures Unframe(Frame(b, width) + rest, width) == Some((b, rest))
  {
    var s := Frame(b, width) + rest;
    NumberRoundTrip(|b|, width);
    assert s[..width] == BigEndian(|b|, width);
    assert s[width..width + |b|] == b && s[width + |b|..] == rest;
  }

  lemma {:induction false} Parts(s: Bytes, width: int, n: int)
    requires AreBytes(s) && 0 <= width && 0 <= n && width + n <= |s|
    ensures s == s[..width] + s[width..width + n] + s[width + n..]
    ensures |s[..width]| == width && |s[width..width + n]| == n
    ensures AreBytes(s[..width]) && AreBytes(s[width..width + n]) && AreBytes(s[width + n..])
  {
  }

  /** The length that a frame starts with. */
  lemma {:induction false} LengthRead(head: Bytes, b: Bytes)
    requires AreBytes(head) && |b| == FromBigEndian(head)
    ensures BigEndian(|b|, |head|) == head && |b| < Limit(|head|)
  {
    BytesRoundTrip(head);
  }

  lemma {:induction false} FrameUnframe(s: Bytes, width: int)
    requires width >= 1 && AreBytes(s) && Unframe(s, width).Some?
    ensures var (b, rest) := Unframe(s, width).value;
            s == Frame(b, width) + rest && |b| < Limit(width) && AreBytes(b) && AreBytes(rest)
  {
    var (b, rest) := Unframe(s, width).value;
    Parts(s, width, FromBigEndian(s[..width]));
    LengthRead(s[..width], b);
  }

  // The controlled code tree

  /** How many bytes hold a length: short for the domain and names, long for the count and contents. */
  datatype Layout = Layout(short: int, long: int) {
    predicate Ok() {
      short >= 1 && long >= 1
    }
  }

  const CODE_LAYOUT := Layout(4, 8)

  datatype Entry = Entry(name: Bytes, content: Bytes)

  datatype Tree = Tree(domain: Bytes, entries: seq<Entry>)

  predicate EntryFits(l: Layout, e: Entry) {
    |e.name| < Limit(l.short) && |e.content| < Limit(l.long)
  }

  predicate AllFit(l: Layout, entries: seq<Entry>) {
    forall i | 0 <= i < |entries| :: EntryFits(l, entries[i])
  }

  predicate Fits(l: Layout, t: Tree) {
    && |t.domain| < Limit(l.short) && |t.entries| < Limit(l.long)
    && AllFit(l, t.entries)
  }

  function EntryStream(l: Layout, e: Entry): Bytes {
    Frame(e.name, l.short) + Frame(e.content, l.long)
  }

  function EntriesStream(l: Layout, entries: seq<Entry>): Bytes {
    if entries == [] then [] else EntryStream(l, entries[0]) + EntriesStream(l, entries[1..])
  }

  function TreeStream(l: Layout, t: Tree): Bytes {
    Frame(t.domain, l.short) + BigEndian(|t.entries|, l.long) + EntriesStream(l, t.entries)
  }

  lemma {:induction false} EntriesStreamJoin(l: Layout, a: seq<Entry>, b: seq<Entry>)
    ensures EntriesStream(l, a + b) == EntriesStream(l, a) + EntriesStream(l, b)
  {
    if a == [] {
      assert a + b == b;
    } else {
      assert (a + b)[1..] == a[1..] + b;
      EntriesStreamJoin(l, a[1..], b);
    }
  }

  /** Each entry at its place: its name and its content, each behind its length. */
  lemma {:induction false} EntriesTell(l: Layout, before: seq<Entry>, e: Entry, after: seq<Entry>)
    ensures EntriesStream(l, before + [e] + after)
      == EntriesStream(l, before) + EntriesStream(l, [e]) + EntriesStream(l, after)
    ensures EntriesStream(l, [e])
      == BigEndian(|e.name|, l.short) + e.name + (BigEndian(|e.content|, l.long) + e.content)
  {
    EntriesStreamJoin(l, before + [e], after);
    EntriesStreamJoin(l, before, [e]);
    assert [e][1..] == [] && EntriesStream(l, [e]) == EntryStream(l, e) + [];
  }

  /** Four and eight bytes. */
  lemma {:induction false} CodeLimits()
    ensures Limit(CODE_LAYOUT.short) == 0x1_0000_0000 && Limit(CODE_LAYOUT.long) == 0x1_0000_0000_0000_0000
  {
    assert Limit(4) == 256 * Limit(3) && Limit(3) == 256 * Limit(2) && Limit(2) == 256 * Limit(1);
    assert Limit(8) == 256 * Limit(7) && Limit(7) == 256 * Limit(6) && Limit(6) == 256 * Limit(5);
    assert Limit(5) == 256 * Limit(4) && Limit(1) == 256 * Limit(0);
  }

  function ReadEntry(l: Layout, s: Bytes): Option<(Entry, Bytes)>
    requires l.Ok()
  {
    var name := Unframe(s, l.short);
    if name.None? then None
    else
      var content := Unframe(name.value.1, l.long);
      if content.None? then None else Some((Entry(name.value.0, content.value.0), content.value.1))
  }

  function ReadEntries(l: Layout, s: Bytes, n: int): Option<seq<Entry>>
    requires l.Ok()
    decreases n
  {
    if n <= 0 then if s == [] then Some([]) else None
    else
      var first := ReadEntry(l, s);
      if first.None? then None
      else
        var rest := ReadEntries(l, first.value.1, n - 1);
        if rest.None? then None else Some([first.value.0] + rest.value)
  }

  /** Reads a stream back; nothing may follow the last entry. */
  function ReadTree(l: Layout, s: Bytes): Option<Tree>
    requires l.Ok()
  {
    var domain := Unframe(s, l.short);
    if domain.None? || |domain.value.1| < l.long then None
    else
      var entries := ReadEntries(l, domain.value.1[l.long..], FromBigEndian(domain.value.1[..l.long]));
      if entries.None? then None else Some(Tree(domain.value.0, entries.value))
  }

  lemma {:induction false} EntryRoundTrip(l: Layout, e: Entry, rest: Bytes)
    requires l.Ok() && EntryFits(l, e)
    ensures ReadEntry(l, EntryStream(l, e) + rest) == Some((e, rest))
  {
    var content := Frame(e.content, l.long) + rest;
    assert EntryStream(l, e) + rest == Frame(e.name, l.short) + content;
    UnframeFrame(e.name, l.short, content);
    UnframeFrame(e.content, l.long, rest);
  }

  lemma {:induction false} ReadEntriesCons(l: Layout, s: Bytes, n: int, e: Entry, rest: Bytes, tail: seq<Entry>)
    requires l.Ok() && n > 0 && ReadEntry(l, s) == Some((e, rest)) && ReadEntries(l, rest, n - 1) == Some(tail)
    ensures ReadEntries(l, s, n) == Some([e] + tail)
  {
  }

  lemma {:induction false} StreamRoundTrip(l: Layout, e: Entry, tail: seq<Entry>)
    requires l.Ok() && EntryFits(l, e) && ReadEntries(l, EntriesStream(l, tail), |tail|) == Some(tail)
    ensures ReadEntries(l, EntriesStream(l, [e] + tail), |tail| + 1) == Some([e] + tail)
  {
    var rest := EntriesStream(l, tail);
    EntriesStreamCons(l, e, tail);
    EntryRoundTrip(l, e, rest);
    ReadEntriesCons(l, EntryStream(l, e) + rest, |tail| + 1, e, rest, tail);
  }

  lemma {:induction false} EntriesRoundTrip(l: Layout, entries: seq<Entry>)
    requires l.Ok() && AllFit(l, entries)
    ensures ReadEntries(l, EntriesStream(l, entries), |entries|) == Some(entries)
  {
    if entries != [] {
      var e, tail := entries[0], entries[1..];
      assert entries == [e] + tail;
      EntriesRoundTrip(l, tail);
      StreamRoundTrip(l, e, tail);
    }
  }

  /** The domain and every name and content can be read back from the stream. */
  lemma {:induction false} TreeRoundTrip(l: Layout, t: Tree)
    requires l.Ok()
    requires Fits(l, t)
    ensures ReadTree(l, TreeStream(l, t)) == Some(t)
  {
    var rest := BigEndian(|t.entries|, l.long) + EntriesStream(l, t.entries);
    assert TreeStream(l, t) == Frame(t.domain, l.short) + rest;
    UnframeFrame(t.domain, l.short, rest);
    NumberRoundTrip(|t.entries|, l.long);
    assert rest[..l.long] == BigEndian(|t.entries|, l.long) && rest[l.long..] == EntriesStream(l, t.entries);
    EntriesRoundTrip(l, t.entries);
  }

  /** Different trees never share a stream. */
  lemma {:induction false} TreesAreTold(l: Layout, a: Tree, b: Tree)
    requires l.Ok()
    requires Fits(l, a) && Fits(l, b) && TreeStream(l, a) == TreeStream(l, b)
    ensures a == b
  {
    TreeRoundTrip(l, a);
    TreeRoundTrip(l, b);
  }

  /** The controlled code tree: four bytes for the domain and names, eight for the count and contents. */
  lemma {:induction false} ControlledCodeIsTold(a: Tree, b: Tree)
    requires Fits(CODE_LAYOUT, a) && Fits(CODE_LAYOUT, b) && TreeStream(CODE_LAYOUT, a) == TreeStream(CODE_LAYOUT, b)
    ensures a == b
  {
    TreesAreTold(CODE_LAYOUT, a, b);
  }

  lemma {:induction false} EntriesAreTold(l: Layout, a: Entry, b: Entry)
    requires l.Ok() && EntryFits(l, a) && EntryFits(l, b) && EntryStream(l, a) == EntryStream(l, b)
    ensures a == b
  {
    EntryRoundTrip(l, a, []);
    EntryRoundTrip(l, b, []);
    assert EntryStream(l, a) + [] == EntryStream(l, b) + [];
  }

  /** A baseline is a domain and one payload as JSON text. */
  function BaselineEntry(domain: Text, payload: Value): Entry {
    Entry(Encode(domain), Payload(payload))
  }

  predicate BaselineFits(l: Layout, domain: Text, payload: Value) {
    Encodable(domain) && Encodable(Write(payload)) && EntryFits(l, BaselineEntry(domain, payload))
  }

  /** Neither the domain nor the payload can be mistaken. */
  lemma {:induction false} BaselinesAreTold(l: Layout, domain: Text, a: Value, other: Text, b: Value)
    requires l.Ok() && BaselineFits(l, domain, a) && BaselineFits(l, other, b)
    requires EntryStream(l, BaselineEntry(domain, a)) == EntryStream(l, BaselineEntry(other, b))
    ensures domain == other && a == b
  {
    EntriesAreTold(l, BaselineEntry(domain, a), BaselineEntry(other, b));
    TextsAreTold(domain, other);
    PayloadsAreTold(a, b);
  }

  /** Streams of different domains never agree, whatever follows. */
  lemma {:induction false} DomainsAreTold(l: Layout, t: Tree, e: Entry)
    requires l.Ok() && Fits(l, t) && EntryFits(l, e) && TreeStream(l, t) == EntryStream(l, e)
    ensures t.domain == e.name
  {
    var afterDomain := BigEndian(|t.entries|, l.long) + EntriesStream(l, t.entries);
    assert TreeStream(l, t) == Frame(t.domain, l.short) + afterDomain;
    UnframeFrame(t.domain, l.short, afterDomain);
    UnframeFrame(e.name, l.short, Frame(e.content, l.long));
  }

  lemma {:induction false} ReadEntryIsExact(l: Layout, s: Bytes)
    requires l.Ok() && AreBytes(s) && ReadEntry(l, s).Some?
    ensures var (e, rest) := ReadEntry(l, s).value; s == EntryStream(l, e) + rest && EntryFits(l, e) && AreBytes(rest)
  {
    var after := Unframe(s, l.short).value.1;
    FrameUnframe(s, l.short);
    FrameUnframe(after, l.long);
  }

  lemma {:induction false} EntriesStreamCons(l: Layout, e: Entry, tail: seq<Entry>)
    ensures EntriesStream(l, [e] + tail) == EntryStream(l, e) + EntriesStream(l, tail)
    ensures EntryFits(l, e) && AllFit(l, tail) ==> AllFit(l, [e] + tail)
  {
    assert ([e] + tail)[1..] == tail;
  }

  lemma {:induction false} ReadEntriesIsExact(l: Layout, s: Bytes, n: int)
    requires l.Ok() && AreBytes(s) && ReadEntries(l, s, n).Some? && n >= 0
    ensures var entries := ReadEntries(l, s, n).value;
            EntriesStream(l, entries) == s && |entries| == n && AllFit(l, entries)
    decreases n
  {
    if n > 0 {
      ReadEntryIsExact(l, s);
      var (e, rest) := ReadEntry(l, s).value;
      ReadEntriesIsExact(l, rest, n - 1);
      var tail := ReadEntries(l, rest, n - 1).value;
      ReadEntriesCons(l, s, n, e, rest, tail);
      EntriesStreamCons(l, e, tail);
    }
  }

  /** What can be read is exactly what was written: no other byte sequence reads as this tree. */
  lemma {:induction false} ReadTreeIsExact(l: Layout, s: Bytes)
    requires l.Ok()
    requires AreBytes(s) && ReadTree(l, s).Some?
    ensures Fits(l, ReadTree(l, s).value) && TreeStream(l, ReadTree(l, s).value) == s
  {
    var (domain, rest) := Unframe(s, l.short).value;
    FrameUnframe(s, l.short);
    HalvesOf(rest, l.long);
    CountIsExact(l, rest[..l.long], rest[l.long..]);
    var entries := ReadTree(l, s).value.entries;
    JoinedThrice(Frame(domain, l.short), BigEndian(|entries|, l.long), EntriesStream(l, entries));
  }

  lemma {:induction false} JoinedThrice(a: Bytes, b: Bytes, c: Bytes)
    ensures a + (b + c) == a + b + c
  {
  }

  lemma {:induction false} HalvesOf(s: Bytes, n: int)
    requires AreBytes(s) && 0 <= n <= |s|
    ensures s == s[..n] + s[n..] && |s[..n]| == n && AreBytes(s[..n]) && AreBytes(s[n..])
  {
  }

  lemma {:induction false} CountIsExact(l: Layout, head: Bytes, tail: Bytes)
    requires l.Ok() && AreBytes(head) && AreBytes(tail) && |head| == l.long
    requires ReadEntries(l, tail, FromBigEndian(head)).Some?
    ensures
      var entries := ReadEntries(l, tail, FromBigEndian(head)).value;
      && head == BigEndian(|entries|, l.long) && tail == EntriesStream(l, entries)
      && |entries| < Limit(l.long) && AllFit(l, entries)
  {
    BytesRoundTrip(head);
    ReadEntriesIsExact(l, tail, FromBigEndian(head));
  }

  // A list of components, each with its length and no count

  function FramesStream(width: int, components: seq<Bytes>): Bytes {
    if components == [] then [] else Frame(components[0], width) + FramesStream(width, components[1..])
  }

  function ReadFrames(width: int, s: Bytes): Option<seq<Bytes>>
    requires width >= 1
    decreases |s|
  {
    if s == [] then Some([])
    else
      var first := Unframe(s, width);
      if first.None? then None
      else
        var rest := ReadFrames(width, first.value.1);
        if rest.None? then None else Some([first.value.0] + rest.value)
  }

  lemma {:induction false} ReadFramesCons(width: int, s: Bytes, first: Bytes, rest: Bytes, tail: seq<Bytes>)
    requires width >= 1 && s != [] && Unframe(s, width) == Some((first, rest)) && ReadFrames(width, rest) == Some(tail)
    ensures ReadFrames(width, s) == Some([first] + tail)
  {
  }

  lemma {:induction false} FramesRoundTrip(width: int, components: seq<Bytes>)
    requires width >= 1
    requires forall i | 0 <= i < |components| :: |components[i]| < Limit(width)
    ensures ReadFrames(width, FramesStream(width, components)) == Some(components)
  {
    if components != [] {
      var first, tail := components[0], components[1..];
      var rest := FramesStream(width, tail);
      FramesRoundTrip(width, tail);
      UnframeFrame(first, width, rest);
      ReadFramesCons(width, Frame(first, width) + rest, first, rest, tail);
      assert [first] + tail == components;
    }
  }

  /** A named setting. */
  datatype Setting = Setting(name: Text, value: Value)

  function Components(contract: Text, settings: seq<Setting>): seq<Bytes> {
    [Encode(contract)] + SettingComponents(settings)
  }

  function SettingComponents(settings: seq<Setting>): seq<Bytes> {
    if settings == [] then []
    else [Encode(settings[0].name), Payload(settings[0].value)] + SettingComponents(settings[1..])
  }

  predicate SettingFits(width: int, s: Setting) {
    && Encodable(s.name) && Encodable(Write(s.value))
    && |Encode(s.name)| < Limit(width) && |Payload(s.value)| < Limit(width)
  }

  predicate AllSettingsFit(width: int, settings: seq<Setting>) {
    forall i | 0 <= i < |settings| :: SettingFits(width, settings[i])
  }

  lemma {:induction false} SettingComponentsFit(width: int, settings: seq<Setting>)
    requires AllSettingsFit(width, settings)
    ensures forall i | 0 <= i < |SettingComponents(settings)| :: |SettingComponents(settings)[i]| < Limit(width)
  {
    if settings != [] {
      assert SettingFits(width, settings[0]);
      SettingComponentsFit(width, settings[1..]);
    }
  }

  lemma {:induction false} SettingComponentsTell(width: int, a: seq<Setting>, b: seq<Setting>)
    requires AllSettingsFit(width, a) && AllSettingsFit(width, b)
    requires SettingComponents(a) == SettingComponents(b)
    ensures a == b
  {
    if a != [] && b != [] {
      var x, y := SettingComponents(a), SettingComponents(b);
      assert x[0] == y[0] && x[1] == y[1] && x[2..] == y[2..];
      assert x[2..] == SettingComponents(a[1..]) && y[2..] == SettingComponents(b[1..]);
      assert SettingFits(width, a[0]) && SettingFits(width, b[0]);
      TextsAreTold(a[0].name, b[0].name);
      PayloadsAreTold(a[0].value, b[0].value);
      SettingComponentsTell(width, a[1..], b[1..]);
      assert a == [a[0]] + a[1..] && b == [b[0]] + b[1..];
    }
  }

  /** Different retrieval versions never share a stream: the settings can be told from its bytes. */
  lemma {:induction false} VersionsAreTold(width: int, contract: Text, a: seq<Setting>, b: seq<Setting>)
    requires width >= 1 && |Encode(contract)| < Limit(width)
    requires AllSettingsFit(width, a) && AllSettingsFit(width, b)
    requires FramesStream(width, Components(contract, a)) == FramesStream(width, Components(contract, b))
    ensures a == b
  {
    SettingComponentsFit(width, a);
    SettingComponentsFit(width, b);
    FramesRoundTrip(width, Components(contract, a));
    FramesRoundTrip(width, Components(contract, b));
    assert Components(contract, a)[1..] == SettingComponents(a);
    assert Components(contract, b)[1..] == SettingComponents(b);
    SettingComponentsTell(width, a, b);
  }

  // The digests are fed piece by piece

  class Digest {
    var fed: Bytes

    constructor ()
      ensures fed == []
    {
      fed := [];
    }

    method Update(b: Bytes)
      modifies this
      ensures fed == old(fed) + b
    {
      fed := fed + b;
    }

    /** int.to_bytes refuses a number that needs more bytes. */
    method UpdateNumber(n: int, width: int) returns (ok: bool)
      requires n >= 0 && width >= 1
      modifies this
      ensures ok <==> n < Limit(width)
      ensures fed == if ok then old(fed) + BigEndian(n, width) else old(fed)
    {
      ok := n < Limit(width);
      if ok {
        fed := fed + BigEndian(n, width);
      }
    }
  }

  lemma {:induction false} EntriesStreamNext(l: Layout, entries: seq<Entry>, i: int)
    requires 0 <= i < |entries|
    ensures EntriesStream(l, entries[..i + 1]) == EntriesStream(l, entries[..i]) + EntryStream(l, entries[i])
  {
    if i == 0 {
      assert entries[..1][1..] == [] && EntriesStream(l, entries[..0]) == [];
    } else {
      assert entries[..i + 1][1..] == entries[1..][..i] && entries[..i][1..] == entries[1..][..i - 1];
      EntriesStreamNext(l, entries[1..], i - 1);
    }
  }

  method FeedFrame(digest: Digest, b: Bytes, width: int) returns (ok: bool)
    requires width >= 1
    modifies digest
    ensures ok <==> |b| < Limit(width)
    ensures ok ==> digest.fed == old(digest.fed) + Frame(b, width)
  {
    ok := digest.UpdateNumber(|b|, width);
    if ok {
      digest.Update(b);
      assert digest.fed == old(digest.fed) + Frame(b, width);
    }
  }

  method FeedEntry(digest: Digest, l: Layout, e: Entry) returns (ok: bool)
    requires l.Ok()
    modifies digest
    ensures ok <==> EntryFits(l, e)
    ensures ok ==> digest.fed == old(digest.fed) + EntryStream(l, e)
  {
    ok := FeedFrame(digest, e.name, l.short);
    if ok {
      ok := FeedFrame(digest, e.content, l.long);
      assert ok ==> digest.fed == old(digest.fed) + EntryStream(l, e);
    }
  }

  /** Feeds the digest with exactly the stream of the tree, or fails because a length does not fit. */
  method FeedTree(digest: Digest, l: Layout, t: Tree) returns (ok: bool)
    requires l.Ok() && digest.fed == []
    modifies digest
    ensures ok <==> Fits(l, t)
    ensures ok ==> digest.fed == TreeStream(l, t)
  {
    ok := FeedHead(digest, l, t.domain, |t.entries|);
    if ok {
      ok := FeedEntries(digest, l, t.entries);
    }
  }

  method FeedHead(digest: Digest, l: Layout, domain: Bytes, count: int) returns (ok: bool)
    requires l.Ok() && digest.fed == [] && count >= 0
    modifies digest
    ensures ok <==> |domain| < Limit(l.short) && count < Limit(l.long)
    ensures ok ==> digest.fed == Frame(domain, l.short) + BigEndian(count, l.long)
  {
    ok := FeedFrame(digest, domain, l.short);
    if ok {
      ok := digest.UpdateNumber(count, l.long);
    }
  }

  method FeedEntries(digest: Digest, l: Layout, entries: seq<Entry>) returns (ok: bool)
    requires l.Ok()
    modifies digest
    ensures ok <==> AllFit(l, entries)
    ensures ok ==> digest.fed == old(digest.fed) + EntriesStream(l, entries)
  {
    ghost var head := digest.fed;
    for i := 0 to |entries|
      invariant Follows(l, head, digest.fed, entries[..i])
      invariant AllFit(l, entries[..i])
    {
      ghost var now := digest.fed;
      ok := FeedEntry(digest, l, entries[i]);
      FitNext(l, entries, i);
      if !ok {
        return;
      }
      FollowsNext(l, head, now, digest.fed, entries, i);
    }
    assert entries[..|entries|] == entries;
    ok := true;
  }

  ghost predicate Follows(l: Layout, head: Bytes, now: Bytes, entries: seq<Entry>) {
    now == head + EntriesStream(l, entries)
  }

  lemma {:induction false} FollowsNext(l: Layout, head: Bytes, now: Bytes, later: Bytes, entries: seq<Entry>, i: int)
    requires 0 <= i < |entries| && Follows(l, head, now, entries[..i]) && later == now + EntryStream(l, entries[i])
    ensures Follows(l, head, later, entries[..i + 1])
  {
    EntriesStreamNext(l, entries, i);
  }

  lemma {:induction false} FitNext(l: Layout, entries: seq<Entry>, i: int)
    requires 0 <= i < |entries| && AllFit(l, entries[..i])
    ensures AllFit(l, entries) ==> EntryFits(l, entries[i])
    ensures EntryFits(l, entries[i]) ==> AllFit(l, entries[..i + 1])
  {
    assert entries[..i + 1] == entries[..i] + [entries[i]];
  }
}
