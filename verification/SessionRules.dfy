/**
 What the rules for a stored session ask for, in terms of the text and numbers themselves
 (src/session_store.rs, `validate_*`; crates/domain/src/network.rs:337-425; crates/domain/src/lib.rs:480-520).
 */
module SessionRules {
  import opened SessionBytes
  import opened SessionText
  import opened SessionTypes
  import opened SessionFormat
  import opened SessionLayout
  import opened SessionFile

  /** How many of each a file may hold, and how long a string may be. */
  lemma Limits()
    ensures [MAX_WINDOWS, MAX_TABS, MAX_DIRECTORY_VIEWS, MAX_NETWORK_LOCATIONS, MAX_NETWORK_DEVICES, MAX_PATH_UNITS]
         == [128, 1_024, 256, 1_024, 1_024, 32_767]
  {
  }

  // ---- columns ----

  function Kinds(): set<ColumnKind>
  {
    {NameColumn, KindColumn, SizeColumn, ModifiedColumn, CreatedColumn}
  }

  lemma FiveKinds()
    ensures |Kinds()| == 5 && forall kind: ColumnKind :: kind in Kinds()
  {
    forall kind: ColumnKind ensures kind in Kinds() {
      match kind case NameColumn => case KindColumn => case SizeColumn => case ModifiedColumn => case CreatedColumn =>
    }
  }

  lemma FiveDiffer<T>(a: T, b: T, c: T, d: T, e: T)
    ensures (a != b && a != c && a != d && a != e && b != c && b != d && b != e && c != d && c != e && d != e)
            <==> |{a, b, c, d, e}| == 5
  {
    assert {a, b, c, d, e} == {a} + {b} + {c} + {d} + {e};
  }

  lemma OrderOfFive(c: ColumnLayout)
    ensures (forall i, j :: 0 <= i < j < 5 ==> c.order[i] != c.order[j])
       <==> {c.order[0], c.order[1], c.order[2], c.order[3], c.order[4]} == Kinds()
  {
    var used := {c.order[0], c.order[1], c.order[2], c.order[3], c.order[4]};
    FiveKinds();
    hide Kinds;
    FiveDiffer(c.order[0], c.order[1], c.order[2], c.order[3], c.order[4]);
    assert used <= Kinds();
    if |used| == 5 {
      assert |Kinds() - used| == 0;
    }
  }

  /** A column layout is valid if it orders all five columns, shows the name and keeps widths from 64 to 4096. */
  lemma ColumnsMean(c: ColumnLayout)
    ensures ColumnsValid(c) <==>
              && (forall kind :: kind in Kinds() ==> kind in c.order)
              && c.visible[0]
              && forall i :: 0 <= i < 5 ==> 64 <= c.widths[i] <= 4_096
  {
    OrderOfFive(c);
    var used := {c.order[0], c.order[1], c.order[2], c.order[3], c.order[4]};
    assert forall kind :: kind in c.order <==> kind in used by {
      assert c.order == [c.order[0], c.order[1], c.order[2], c.order[3], c.order[4]];
    }
  }

  /** A preference is valid exactly if its columns are and icons, where it shows them, are 16 to 256 large. */
  lemma PreferencesMean(directory: DirectoryPreference, search: SearchPreference)
    ensures DirectoryPreferenceValid(directory) <==>
              ColumnsValid(directory.columns) && (directory.viewMode.Icons? ==> 16 <= directory.viewMode.size <= 256)
    ensures SearchPreferenceValid(search) <==>
              ColumnsValid(search.columns) && (search.viewMode.Icons? ==> 16 <= search.viewMode.size <= 256)
  {
    hide ColumnsValid;
  }

  // ---- names ----

  /** White space, as Unicode has it. */
  ghost predicate WhiteSpace(c: char)
  {
    c as int in {0x09, 0x0A, 0x0B, 0x0C, 0x0D, 0x20, 0x85, 0xA0, 0x1680, 0x2000, 0x2001, 0x2002, 0x2003, 0x2004, 0x2005,
                 0x2006, 0x2007, 0x2008, 0x2009, 0x200A, 0x2028, 0x2029, 0x202F, 0x205F, 0x3000}
  }

  lemma BlankMeans(text: string)
    ensures AllBlank(text) <==> forall c :: c in text ==> WhiteSpace(c)
  {
    assert forall c :: Blank(c) <==> WhiteSpace(c);
    assert forall i :: 0 <= i < |text| ==> text[i] in text;
  }

  // ---- servers ----

  ghost predicate IsSlash(u: u16) { u == '\\' as int || u == '/' as int }

  ghost predicate Slashes(u: Units)
  {
    forall i :: 0 <= i < |u| ==> IsSlash(u[i])
  }

  /** The `\\?\UNC\` prefix spelt exactly so. */
  ghost predicate Verbatim(lead: Units)
  {
    lead == ['\\' as int, '\\' as int, '?' as int, '\\' as int, 'U' as int, 'N' as int, 'C' as int, '\\' as int]
  }

  /** A server: two slashes or the verbatim prefix, a host, and nothing but slashes behind it. */
  ghost predicate Server(u: Units, lead: Units, host: Units, tail: Units)
  {
    && u == lead + host + tail && host != [] && (forall i :: 0 <= i < |host| ==> !IsSlash(host[i])) && Slashes(tail)
    && (Verbatim(lead) || (|lead| == 2 && Slashes(lead) && host[0] != '.' as int && host[0] != '?' as int))
  }

  lemma {:induction false} HostLengthIs(host: Units, tail: Units)
    requires (forall i :: 0 <= i < |host| ==> !IsSlash(host[i])) && Slashes(tail)
    ensures HostLength(host + tail) == |host|
    decreases |host|
  {
    if host == [] {
      assert host + tail == tail;
    } else {
      HostLengthIs(host[1..], tail);
      assert (host + tail)[1..] == host[1..] + tail;
    }
  }

  lemma {:induction false} HostIsClean(body: Units)
    ensures forall i :: 0 <= i < HostLength(body) ==> !IsSlash(body[i])
    decreases |body|
  {
    if body != [] && !Slash(body[0]) {
      HostIsClean(body[1..]);
      forall i | 0 <= i < HostLength(body) ensures !IsSlash(body[i]) {
        assert i > 0 ==> body[i] == body[1..][i - 1];
      }
    }
  }

  lemma ServerFound(u: Units) returns (lead: Units, host: Units, tail: Units)
    requires ServerRoot(u)
    ensures Server(u, lead, host, tail)
  {
    var body := UncBody(u).value;
    var n := HostLength(body);
    HostIsClean(body);
    host, tail := body[..n], body[n..];
    assert body == host + tail;
    if VERBATIM_UNC <= u {
      lead := u[..8];
    } else {
      lead := u[..2];
      assert host[0] == u[2];
    }
  }

  lemma ServerIsRoot(u: Units, lead: Units, host: Units, tail: Units)
    requires Server(u, lead, host, tail)
    ensures ServerRoot(u)
  {
    HostLengthIs(host, tail);
    var body := host + tail;
    if Verbatim(lead) {
      assert VERBATIM_UNC == lead && u[8..] == body;
    } else {
      assert u[2..] == body && u[2] == host[0] && u[0] == lead[0] && u[1] == lead[1];
    }
  }

  /** A network device's path is a server: a host and nothing behind it. */
  lemma ServerMeans(u: Units)
    ensures ServerRoot(u) <==> exists lead, host, tail :: Server(u, lead, host, tail)
  {
    if ServerRoot(u) {
      var lead, host, tail := ServerFound(u);
    }
    if lead, host, tail :| Server(u, lead, host, tail) {
      ServerIsRoot(u, lead, host, tail);
    }
  }

  /** The same text but for the case of ASCII letters. */
  ghost predicate SameSpelling(a: Units, b: Units)
  {
    |a| == |b| && forall i :: 0 <= i < |a| ==>
      || a[i] == b[i]
      || ('A' as int <= a[i] <= 'Z' as int && b[i] == a[i] + 32)
      || ('A' as int <= b[i] <= 'Z' as int && a[i] == b[i] + 32)
  }

  /** Devices are the same if their paths differ in nothing but the case of ASCII letters. */
  lemma SameDevice(a: Units, b: Units)
    ensures LowerAscii(a) == LowerAscii(b) <==> SameSpelling(a, b)
  {
    if LowerAscii(a) == LowerAscii(b) {
      assert |LowerAscii(a)| == |LowerAscii(b)|;
      forall i | 0 <= i < |a|
        ensures || a[i] == b[i]
                || ('A' as int <= a[i] <= 'Z' as int && b[i] == a[i] + 32)
                || ('A' as int <= b[i] <= 'Z' as int && a[i] == b[i] + 32)
      {
        assert LowerAscii(a)[i] == LowerAscii(b)[i];
      }
    }
  }

  /** A stored device is named, has no shell identity, and is at a server. */
  ghost predicate Stored(d: NetworkDevice)
  {
    && (exists c :: c in d.displayName && !WhiteSpace(c)) && d.shellIdentity.None? && d.uncPath.Some?
    && exists lead, host, tail :: Server(d.uncPath.value, lead, host, tail)
  }

  lemma StoredMeans(d: NetworkDevice)
    ensures Stored(d) <==>
              !AllBlank(d.displayName) && d.shellIdentity.None? && d.uncPath.Some? && ServerRoot(d.uncPath.value)
  {
    hide AllBlank, WhiteSpace, ServerRoot, Server;
    BlankMeans(d.displayName);
    if d.uncPath.Some? {
      ServerMeans(d.uncPath.value);
    }
  }

  /** What a list of stored network devices has to be. */
  lemma DevicesMean(devices: seq<NetworkDevice>)
    ensures DevicesValid(devices) <==>
              && |devices| <= 1_024
              && (forall d :: d in devices ==> Stored(d))
              && forall i, j :: 0 <= i < j < |devices| && devices[i].uncPath.Some? && devices[j].uncPath.Some? ==>
                   !SameSpelling(devices[i].uncPath.value, devices[j].uncPath.value)
  {
    hide AllBlank, ServerRoot, Stored, SameSpelling, LowerAscii;
    forall d | d in devices
      ensures Stored(d) <==>
                !AllBlank(d.displayName) && d.shellIdentity.None? && d.uncPath.Some? && ServerRoot(d.uncPath.value)
    {
      StoredMeans(d);
    }
    assert forall i :: 0 <= i < |devices| ==> devices[i] in devices;
    if forall d :: d in devices ==> Stored(d) {
      forall i | 0 <= i < |devices| ensures devices[i].uncPath.Some? {
        StoredMeans(devices[i]);
      }
      forall i, j | 0 <= i < j < |devices|
        ensures LowerAscii(devices[i].uncPath.value) == LowerAscii(devices[j].uncPath.value)
           <==> SameSpelling(devices[i].uncPath.value, devices[j].uncPath.value)
      {
        SameDevice(devices[i].uncPath.value, devices[j].uncPath.value);
      }
    }
  }

  // ---- tabs and windows ----

  /** The text without the slashes at its end. */
  lemma {:induction false} TrimmedMeans(text: string, stem: string)
    ensures TrimSlashes(text) == stem <==>
              && stem <= text && (forall i :: |stem| <= i < |text| ==> text[i] == '/')
              && (stem == "" || stem[|stem| - 1] != '/')
    decreases |text|
  {
    if text != "" && text[|text| - 1] == '/' {
      var init := text[..|text| - 1];
      TrimmedMeans(init, stem);
    } else {
      TrimmedIsText(text, stem);
    }
  }

  lemma TrimmedIsText(text: string, stem: string)
    requires text == "" || text[|text| - 1] != '/'
    ensures text == stem <==>
              && stem <= text && (forall i :: |stem| <= i < |text| ==> text[i] == '/')
              && (stem == "" || stem[|stem| - 1] != '/')
  {
  }

  /** What a stored tab has to be, kind by kind. */
  lemma TabMeans(tab: NavigationLocation)
    ensures TabValid(tab) <==>
              match tab
              case Home => true
              case Directory(path) => |path| <= 32_767
              case Library(identity, name) =>
                0 < |identity| <= 32_767 && |Utf16(name)| <= 32_767 && exists c :: c in name && !WhiteSpace(c)
              case WebDavPlace(id, revision, root, path) =>
                && id > 0 && revision > 0 && root != "" && path != ""
                && (root == "/" || exists stem ::
                      && stem <= root && (forall i :: |stem| <= i < |root| ==> root[i] == '/')
                      && (stem == "" || stem[|stem| - 1] != '/') && stem <= path)
  {
    match tab
    case Home =>
    case Directory(_) =>
    case Library(_, name) => BlankMeans(name);
    case WebDavPlace(_, _, root, path) =>
      TrimmedMeans(root, TrimSlashes(root));
      if stem :| && stem <= root && (forall i :: |stem| <= i < |root| ==> root[i] == '/')
                 && (stem == "" || stem[|stem| - 1] != '/') && stem <= path
      {
        TrimmedMeans(root, stem);
      }
  }

  /** A window is between 820 by 520 and 7680 by 4320 and has at most 1024 valid tabs. */
  lemma WindowMeans(w: Window)
    ensures WindowValid(w) <==>
              && 820 <= w.placement.width <= 7_680 && 520 <= w.placement.height <= 4_320
              && |w.tabs| <= 1_024 && forall tab :: tab in w.tabs ==> TabValid(tab)
  {
    hide TabValid;
  }

  /** What a stored network location has to be. */
  lemma LocationMeans(locations: seq<NetworkLocation>)
    ensures LocationsValid(locations) <==>
              && |locations| <= 1_024
              && (forall i, j :: 0 <= i < j < |locations| ==> locations[i].id != locations[j].id)
              && forall v :: v in locations ==>
                   && v.source == AsterOwned && |Utf16(v.displayName)| <= 32_767
                   && (exists c :: c in v.displayName && !WhiteSpace(c))
                   && (match v.target
                       case WindowsPath(path) => |path| <= 32_767
                       case WebDavTarget(c) =>
                         c.host != "" && c.root != "" && c.username != "" && c.port > 0 && c.connectionId > 0
                       case ShellItemId(_) => false)
  {
    forall v | v in locations ensures AllBlank(v.displayName) <==> forall c :: c in v.displayName ==> WhiteSpace(c) {
      BlankMeans(v.displayName);
    }
    hide AllBlank, WhiteSpace, Utf16;
    assert forall i :: 0 <= i < |locations| ==> locations[i] in locations;
  }

  /** What the list of directory preferences has to be; two paths are the same as the platform says. */
  lemma ViewsMean(canon: Canon, views: seq<DirectoryView>)
    ensures DirectoryViewsValid(canon, views) <==>
              && |views| <= 256
              && (forall v :: v in views ==> |v.path| <= 32_767 && DirectoryPreferenceValid(v.preference))
              && forall i, j :: 0 <= i < |views| && 0 <= j < |views| && canon(views[i].path) == canon(views[j].path) ==>
                   i == j
  {
    hide DirectoryPreferenceValid;
    assert forall i :: 0 <= i < |views| ==> views[i] in views;
  }

  /** A session is valid exactly if each of its parts is, there are 1 to 128 windows, and opacity is a percentage. */
  lemma SessionMeans(canon: Canon, s: Session)
    ensures Valid(canon, s) <==>
              && 1 <= |s.windows| <= 128 && (forall w :: w in s.windows ==> WindowValid(w))
              && s.settings.quickMenuBackdropOpacity <= 100 && EverythingFits(s.settings.everything)
              && DirectoryPreferenceValid(s.defaultView) && SearchPreferenceValid(s.searchView)
              && DirectoryViewsValid(canon, s.directoryViews) && LocationsValid(s.locations) && DevicesValid(s.devices)
  {
    hide WindowValid, EverythingFits, DirectoryPreferenceValid, SearchPreferenceValid, DirectoryViewsValid,
         LocationsValid, DevicesValid;
  }
}
