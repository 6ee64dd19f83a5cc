/**
 Encoding and decoding a session are inverse to each other, and no encoding is a prefix of another.
 */
module SessionTheorems {
  import opened Prelude
  import opened SessionBytes
  import opened SessionText
  import opened SessionTypes
  import opened SessionFormat
  import opened SessionLayout
  import opened SessionFile

  function FileWriters(): Writers
  {
    Writers(PutDirectoryPreference, PutSearchPreference, PutDirectoryView, PutSettings, PutLocation, PutDevice,
      PutWindow)
  }

  function FileReaders(): Readers
  {
    Readers(GetDirectoryPreference, GetSearchPreference, GetDirectoryView, GetSettings, GetLocation, GetDevice,
      GetWindow)
  }

  function FileRules(): Rules
  {
    Rules(DirectoryPreferenceValid, SearchPreferenceValid, DirectoryViewOk, SettingsOk, LocationOk, DeviceOk,
      WindowFits)
  }

  lemma FileCodecs()
    ensures Codecs(FileWriters(), FileReaders(), FileRules())
  {
    DirectoryPreferenceCodec();
    SearchPreferenceCodec();
    DirectoryViewCodec();
    SettingsCodec();
    LocationCodec();
    DeviceCodec();
    WindowCodec();
  }

  // ---- encode and decode ----

  predicate TargetWrites(t: NetworkTarget)
  {
    match t
    case WindowsPath(path) => UnitsFit(path)
    case WebDavTarget(c) => TextFits(c.host) && TextFits(c.root) && TextFits(c.username)
    case ShellItemId(_) => false
  }

  /** No `write_*` call fails. */
  predicate Writes(s: Session)
  {
    && (forall i :: 0 <= i < |s.directoryViews| ==> UnitsFit(s.directoryViews[i].path))
    && EverythingFits(s.settings.everything)
    && (forall i :: 0 <= i < |s.locations| ==>
          TextFits(s.locations[i].displayName) && TargetWrites(s.locations[i].target))
    && (forall i :: 0 <= i < |s.devices| ==>
          TextFits(s.devices[i].displayName) && s.devices[i].uncPath.Some? && UnitsFit(s.devices[i].uncPath.value))
    && (forall i, j :: 0 <= i < |s.windows| && 0 <= j < |s.windows[i].tabs| ==> TabFits(s.windows[i].tabs[j]))
  }

  function Image(s: Session): Bytes
  {
    PutSession(FileWriters(), s, [])
  }

  function Encode(canon: Canon, s: Session): Option<Bytes>
  {
    var checked := Checked(canon, s);
    if checked.None? || !Writes(checked.value) then None else Some(Image(checked.value))
  }

  function Decode(canon: Canon, b: Bytes): Option<Session>
  {
    var parsed := GetSession(FileReaders(), b);
    if parsed.Bad? || parsed.rest != [] then None else Checked(canon, parsed.value)
  }

  // ---- what a session looks like after one trip through the file ----

  function StoredLocation(v: NetworkLocation): NetworkLocation
  {
    v.(shellPath := None)
  }

  function StoredDevice(d: NetworkDevice): NetworkDevice
  {
    d.(id := if d.uncPath.Some? then d.uncPath.value else d.id)
  }

  function Mapped<T>(f: T -> T, items: seq<T>): (r: seq<T>)
    ensures |r| == |items| && forall i :: 0 <= i < |r| ==> r[i] == f(items[i])
  {
    seq(|items|, i requires 0 <= i < |items| => f(items[i]))
  }

  /** Active tabs clamped, device identities recomputed, shell paths dropped. */
  function Normalised(s: Session): Session
  {
    Clamped(s).(locations := Mapped(StoredLocation, s.locations), devices := Mapped(StoredDevice, s.devices))
  }

  lemma {:induction false} MappedImage<T(!new)>(put: (T, Bytes) -> Bytes, f: T -> T, items: seq<T>, rest: Bytes)
    requires forall v: T, r: Bytes :: put(f(v), r) == put(v, r)
    ensures PutAll(put, Mapped(f, items), rest) == PutAll(put, items, rest)
    decreases |items|
  {
    if items != [] {
      MappedImage(put, f, items[1..], rest);
      assert Mapped(f, items)[1..] == Mapped(f, items[1..]);
    }
  }

  lemma NormalisedImage(s: Session)
    ensures Image(Normalised(s)) == Image(Clamped(s))
  {
    var c, n := Clamped(s), Normalised(s);
    var windows := PutAll(PutWindow, c.windows, []);
    MappedImage(PutDevice, StoredDevice, s.devices, windows);
    MappedImage(PutLocation, StoredLocation, s.locations, PutCounted(PutDevice, s.devices, windows));
    assert PutCounted(PutDevice, n.devices, windows) == PutCounted(PutDevice, c.devices, windows);
    assert PutLists(FileWriters(), n, []) == PutLists(FileWriters(), c, []);
  }

  lemma ClampTwice(s: Session)
    ensures Clamped(Clamped(s)) == Clamped(s)
    ensures Clamped(Normalised(s)) == Normalised(s)
  {
    assert Clamped(Clamped(s)).windows == Clamped(s).windows;
    assert Clamped(Normalised(s)).windows == Normalised(s).windows;
  }

  lemma ClampKeepsValid(canon: Canon, s: Session)
    ensures Valid(canon, Clamped(s)) == Valid(canon, s)
  {
    var c := Clamped(s);
    if Valid(canon, s) {
      forall i | 0 <= i < |c.windows| ensures WindowValid(c.windows[i]) {
        assert WindowValid(s.windows[i]);
      }
    }
    if Valid(canon, c) {
      forall i | 0 <= i < |s.windows| ensures WindowValid(s.windows[i]) {
        assert WindowValid(c.windows[i]);
      }
    }
  }

  lemma NormalisedValid(canon: Canon, s: Session)
    requires Valid(canon, s)
    ensures Valid(canon, Normalised(s))
  {
    ClampKeepsValid(canon, s);
    var n := Normalised(s);
    assert LocationsValid(n.locations) by {
      forall i | 0 <= i < |n.locations|
        ensures n.locations[i].source == AsterOwned && !AllBlank(n.locations[i].displayName)
                && TextFits(n.locations[i].displayName) && TargetValid(n.locations[i].target)
      {
        assert n.locations[i] == StoredLocation(s.locations[i]);
      }
      forall i, j | 0 <= i < j < |n.locations| ensures n.locations[i].id != n.locations[j].id {
        assert s.locations[i].id != s.locations[j].id;
      }
    }
    assert DevicesValid(n.devices) by {
      assert forall i :: 0 <= i < |n.devices| ==> n.devices[i] == StoredDevice(s.devices[i]);
    }
  }

  lemma NormalisedStorable(canon: Canon, s: Session)
    requires Valid(canon, s) && Writes(Clamped(s))
    ensures Storable(FileRules(), Normalised(s))
  {
    var n, c := Normalised(s), Clamped(s);
    forall i | 0 <= i < |n.windows| ensures WindowFits(n.windows[i]) {
      assert WindowValid(s.windows[i]);
      assert n.windows[i] == c.windows[i];
    }
    forall i | 0 <= i < |n.locations| ensures LocationOk(n.locations[i]) {
      assert n.locations[i] == StoredLocation(s.locations[i]);
      assert TargetValid(s.locations[i].target) && TargetWrites(s.locations[i].target);
    }
    forall i | 0 <= i < |n.devices| ensures DeviceOk(n.devices[i]) {
      assert n.devices[i] == StoredDevice(s.devices[i]);
      assert c.devices[i] == s.devices[i];
    }
  }

  /**
   What a session comes back as: every window keeps its tabs and its active tab, if it has one; network
   locations lose their shell paths, devices are identified by their paths, and nothing else changes.
   */
  ghost predicate Survives(s: Session, t: Session)
  {
    && t == s.(windows := t.windows, locations := t.locations, devices := t.devices)
    && TabsKept(s.windows, t.windows)
    && |t.locations| == |s.locations| && |t.devices| == |s.devices|
    && (forall i :: 0 <= i < |s.locations| ==> t.locations[i] == s.locations[i].(shellPath := None))
    && (forall i :: 0 <= i < |s.devices| && s.devices[i].uncPath.Some? ==>
          t.devices[i] == s.devices[i].(id := s.devices[i].uncPath.value))
  }

  lemma NormalisedSurvives(s: Session)
    ensures Survives(s, Normalised(s))
  {
    ClampedKeepsTabs(s);
  }

  /** What was encoded decodes to the session itself, up to the three normalisations. */
  lemma DecodeEncode(canon: Canon, s: Session)
    requires Encode(canon, s).Some?
    ensures Decode(canon, Encode(canon, s).value) == Some(Normalised(s)) && Survives(s, Normalised(s))
    ensures forall i :: 0 <= i < |s.devices| ==> s.devices[i].uncPath.Some?
  {
    NormalisedSurvives(s);
    hide PutSession, Valid, Clamped, Mapped, Survives;
    NormalisedStorable(canon, s);
    NormalisedImage(s);
    NormalisedValid(canon, s);
    ClampTwice(s);
    ParsesBack(Normalised(s));
  }

  lemma ParsesBack(s: Session)
    requires Storable(FileRules(), s)
    ensures GetSession(FileReaders(), Image(s)) == Good(s, [])
  {
    FileCodecs();
    SessionRoundTrip(FileWriters(), FileReaders(), FileRules(), s, []);
  }

  lemma ParsedIsImage(b: Bytes)
    requires GetSession(FileReaders(), b).Good? && GetSession(FileReaders(), b).rest == []
    ensures Storable(FileRules(), GetSession(FileReaders(), b).value)
    ensures b == Image(GetSession(FileReaders(), b).value)
  {
    FileCodecs();
    SessionCanonical(FileWriters(), FileReaders(), FileRules(), b);
  }

  /** Every window's active tab is one it has, and 0 in a window without tabs. */
  ghost predicate TabsInRange(s: Session)
  {
    forall i :: 0 <= i < |s.windows| ==>
      var w := s.windows[i]; if w.tabs == [] then w.activeTab == 0 else w.activeTab < |w.tabs|
  }

  lemma StorableWrites(s: Session)
    requires Storable(FileRules(), s)
    ensures Writes(Clamped(s))
  {
    var c := Clamped(s);
    forall i | 0 <= i < |c.locations|
      ensures TextFits(c.locations[i].displayName) && TargetWrites(c.locations[i].target)
    {
      assert LocationOk(s.locations[i]);
    }
    forall i | 0 <= i < |c.devices|
      ensures TextFits(c.devices[i].displayName) && c.devices[i].uncPath.Some? && UnitsFit(c.devices[i].uncPath.value)
    {
      assert DeviceOk(s.devices[i]);
    }
    forall i, j | 0 <= i < |c.windows| && 0 <= j < |c.windows[i].tabs| ensures TabFits(c.windows[i].tabs[j]) {
      assert WindowFits(s.windows[i]);
    }
    forall i | 0 <= i < |c.directoryViews| ensures UnitsFit(c.directoryViews[i].path) {
      assert DirectoryViewOk(s.directoryViews[i]);
    }
  }

  /**
   Accepted bytes are the image of some session `raw`; the decoded session is `raw` with its active
   tabs clamped, it encodes again, and to the very same bytes exactly when no tab was clamped.
   */
  lemma EncodeDecode(canon: Canon, b: Bytes) returns (raw: Session)
    requires Decode(canon, b).Some?
    ensures b == Image(raw) && Decode(canon, b) == Some(Clamped(raw))
    ensures Clamped(raw) == raw.(windows := Clamped(raw).windows) && TabsKept(raw.windows, Clamped(raw).windows)
    ensures Encode(canon, Clamped(raw)) == Some(Image(Clamped(raw)))
    ensures Image(Clamped(raw)) == b <==> TabsInRange(raw)
  {
    hide GetSession, PutSession, Valid;
    raw := GetSession(FileReaders(), b).value;
    ClampedKeepsTabs(raw);
    ParsedIsImage(b);
    ClampKeepsValid(canon, raw);
    ClampTwice(raw);
    StorableWrites(raw);
    ImageInjective(canon, raw);
  }

  lemma ImageInjective(canon: Canon, raw: Session)
    requires Storable(FileRules(), raw) && Valid(canon, raw) && Writes(Clamped(raw))
    ensures Image(Clamped(raw)) == Image(raw) <==> TabsInRange(raw)
  {
    var c := Clamped(raw);
    if TabsInRange(raw) {
      assert c.windows == raw.windows;
      assert c == raw;
    }
    if Image(c) == Image(raw) {
      ParsesBack(raw);
      ClampedStorable(raw);
      ParsesBack(c);
      assert c == raw;
      forall i | 0 <= i < |raw.windows| ensures raw.windows[i].activeTab == ClampedTab(raw.windows[i]) {
        assert c.windows[i] == raw.windows[i];
      }
    }
  }

  lemma ClampedStorable(s: Session)
    requires Storable(FileRules(), s)
    ensures Storable(FileRules(), Clamped(s))
  {
    var c := Clamped(s);
    forall i | 0 <= i < |c.windows| ensures WindowFits(c.windows[i]) {
      assert WindowFits(s.windows[i]);
    }
  }

  // ---- a file with a tab out of range ----

  /** A session in its default settings, with one window that has no tabs. */
  function OneWindow(activeTab: nat): Session
  {
    var columns := Columns([NameColumn, ModifiedColumn, KindColumn, SizeColumn, CreatedColumn],
                           [480, 160, 120, 200, 200], [true, true, true, true, false]);
    Session([Window(Placement(0, 0, 820, 520), activeTab, [])],
            DirectoryPreference(Details, ByName, Ascending, NoGroup, Ascending, columns),
            SearchPreference(Details, ByName, Ascending, columns), [],
            Settings(System, Chinese, Everything(None, "", None, false), FileVisibility(false, false),
                     false, true, true, 85, [true, false, true, true, true]), [], [])
  }

  lemma OneWindowStorable(activeTab: nat)
    requires activeTab < 0x1_0000_0000
    ensures Storable(FileRules(), OneWindow(activeTab))
  {
    var s := OneWindow(activeTab);
    assert Utf16("") == [];
    assert WindowFits(s.windows[0]);
  }

  lemma OneWindowValid(canon: Canon, activeTab: nat)
    ensures Valid(canon, OneWindow(activeTab)) && Clamped(OneWindow(activeTab)) == OneWindow(0)
  {
    hide TabValid, DeviceOk, LocationOk;
    var s := OneWindow(activeTab);
    assert Utf16("") == [];
    assert WindowValid(s.windows[0]);
    assert Clamped(s).windows == OneWindow(0).windows;
  }

  /** The file of a window without tabs whose active tab is 1: it decodes, and encodes to another file. */
  lemma TabOutOfRange(canon: Canon)
    ensures Decode(canon, Image(OneWindow(1))) == Some(OneWindow(0))
    ensures Encode(canon, OneWindow(0)) == Some(Image(OneWindow(0)))
    ensures Image(OneWindow(0)) != Image(OneWindow(1))
  {
    hide GetSession, PutSession, Valid, Storable, OneWindow;
    OneWindowStorable(1);
    OneWindowStorable(0);
    OneWindowValid(canon, 1);
    OneWindowValid(canon, 0);
    ParsesBack(OneWindow(1));
    ParsesBack(OneWindow(0));
    StorableWrites(OneWindow(0));
    TwoWindows();
  }

  lemma TwoWindows()
    ensures OneWindow(0) != OneWindow(1)
  {
    assert OneWindow(0).windows[0] != OneWindow(1).windows[0];
  }
}
