/**
 Swapping in a new set of rows and telling the view what changed (src/app/directory_model.rs:144-157, 457-521).
 */
module RowReplace {
  import opened Prelude
  import opened GroupRows
  import opened RowModel
  import opened RowAppend

  // ---- names and extensions ----

  /** What stands behind the last character that stops. */
  function AfterLast(text: string, stop: char -> bool): (r: Option<string>)
    ensures r.None? <==> forall i :: 0 <= i < |text| ==> !stop(text[i])
    ensures r.Some? ==> |r.value| < |text|
  {
    if text == "" then None
    else if stop(text[|text| - 1]) then Some("")
    else
      match AfterLast(text[..|text| - 1], stop)
      case None => None
      case Some(tail) => Some(tail + [text[|text| - 1]])
  }

  predicate Separator(c: char) { c == '/' || c == '\\' }

  predicate Dot(c: char) { c == '.' }

  /** `Path::file_name` of a text that does not end in a separator. */
  function Leaf(text: string): string
  {
    AfterLast(text, Separator).GetOr(text)
  }

  function FileName(path: Path): string
  {
    if path.leaf != "" then path.leaf
    else if path.parent != [] then path.parent[|path.parent| - 1]
    else ""
  }

  /** `Path::extension`, none if it is empty; a name that only begins with a dot has none. */
  function Extension(name: string): Option<string>
  {
    match AfterLast(name, Dot)
    case None => None
    case Some(tail) => if tail == "" || |tail| + 1 == |name| then None else Some(tail)
  }

  // ---- WebDAV items ----

  /** `validate_segment`. */
  predicate Segment(text: string)
  {
    text != "" && text != "." && text != ".." && forall i :: 0 <= i < |text| ==> !Separator(text[i]) && text[i] != '\0'
  }

  predicate Resource(segments: seq<string>)
  {
    segments != [] && forall i :: 0 <= i < |segments| ==> Segment(segments[i])
  }

  /** `ResourcePath::canonical`. */
  function Canonical(segments: seq<string>): string
    requires segments != []
    decreases |segments|, 1
  {
    Front(segments) + "/" + segments[|segments| - 1]
  }

  function Front(segments: seq<string>): string
    requires segments != []
    decreases |segments|, 0
  {
    if |segments| == 1 then "" else Canonical(segments[..|segments| - 1])
  }

  /** `webdav_file_entry`: the name of a listed item is the last segment of its path. */
  function WebDavFileEntry(target: WebDavItem, id: nat, segments: seq<string>, directory: bool,
        shown: Shown): (e: Entry)
    requires Resource(segments)
    ensures Listed(e)
  {
    var name := segments[|segments| - 1];
    assert NamedBy(name, Canonical(segments), segments);
    Entry(id, NO_PATH, name, !directory, shown, Some(target.(path := Canonical(segments))))
  }

  /** What entries of a listing are: local ones have a path, WebDAV ones the name their item's path ends in. */
  ghost predicate Listed(e: Entry)
  {
    match e.remote
    case None => e.path != NO_PATH
    case Some(item) => e.path == NO_PATH && exists segments :: NamedBy(e.name, item.path, segments)
  }

  ghost predicate NamedBy(name: string, path: string, segments: seq<string>)
  {
    Resource(segments) && path == Canonical(segments) && name == segments[|segments| - 1]
  }

  ghost predicate ListedEntries(s: RowState)
  {
    && (forall i :: 0 <= i < |s.entries| ==> Listed(s.entries[i]))
    && (forall id :: id in s.updates ==> Listed(s.updates[id]))
  }

  /** Behind the last separator stands the rest of the text. */
  lemma {:induction false} AfterSeparator(front: string, tail: string)
    requires forall i :: 0 <= i < |tail| ==> !Separator(tail[i])
    ensures AfterLast(front + "/" + tail, Separator) == Some(tail)
    decreases |tail|
  {
    var text := front + "/" + tail;
    if tail != "" {
      AfterSeparator(front, tail[..|tail| - 1]);
      assert text[..|text| - 1] == front + "/" + tail[..|tail| - 1];
      assert tail == tail[..|tail| - 1] + [tail[|tail| - 1]];
    }
  }

  /** The file name of an item's path is its last segment. */
  lemma LeafOfItem(segments: seq<string>)
    requires Resource(segments)
    ensures Leaf(Canonical(segments)) == segments[|segments| - 1]
  {
    hide AfterLast, Front;
    var last := segments[|segments| - 1];
    assert Segment(last);
    AfterSeparator(Front(segments), last);
  }

  // ---- what a row shows ----

  datatype Cell =
    | HeaderCell(title: string, detail: string, count: nat)
    | EntryCell(id: nat, file: bool, name: string, shown: Shown, extension: Option<string>, language: Language,
                selected: bool, focused: bool, cut: bool, querying: bool)
    | NoCell

  /** `RowState::entry`: an update wins over the snapshot. */
  function EntryOf(s: RowState, id: nat): Option<Entry>
  {
    if id in s.updates then Some(s.updates[id])
    else if id in s.indices && s.indices[id] < |s.entries| then Some(s.entries[s.indices[id]])
    else None
  }

  /** The kind column of a file names the extension of its WebDAV item, if it is one, else that of its path. */
  function KindExtension(e: Entry): Option<string>
  {
    if !e.file then None
    else Extension(if e.remote.Some? then Leaf(e.remote.value.path) else FileName(e.path))
  }

  /** `row_data`, its images aside. */
  function CellOf(s: RowState, row: nat): Cell
    requires row < |s.layout.visuals|
  {
    match s.layout.visuals[row]
    case Header(_, title, detail, count) => HeaderCell(title, detail, count)
    case Row(id) =>
      match EntryOf(s, id)
      case None => NoCell
      case Some(e) =>
        EntryCell(e.id, e.file, e.name, e.shown, KindExtension(e), s.language, id in s.selected, s.focused == Some(id),
                  e.path in s.cut, id in s.querying)
  }

  function Cells(s: RowState): (r: seq<Cell>)
    ensures |r| == |s.layout.visuals| && forall i :: 0 <= i < |r| ==> r[i] == CellOf(s, i)
  {
    seq(|s.layout.visuals|, i requires 0 <= i < |s.layout.visuals| => CellOf(s, i))
  }

  // ---- notifications ----

  datatype Note = RowsRemoved(at: nat, count: nat) | RowsAdded(at: nat, count: nat) | RowChanged(row: nat)

  /** A view that follows one notification, reading rows of `now`. */
  function Follow(view: seq<Cell>, note: Note, now: RowState): seq<Cell>
  {
    match note
    case RowsRemoved(at, count) => if at + count <= |view| then view[..at] + view[at + count..] else view
    case RowsAdded(at, count) =>
      if at <= |view| && at + count <= |now.layout.visuals| then view[..at] + Cells(now)[at..at + count] + view[at..]
        else view
    case RowChanged(row) => if row < |view| && row < |now.layout.visuals| then view[row := CellOf(now, row)] else view
  }

  function FollowAll(view: seq<Cell>, notes: seq<Note>, now: RowState): seq<Cell>
  {
    if notes == [] then view else Follow(FollowAll(view, notes[..|notes| - 1], now), notes[|notes| - 1], now)
  }

  // ---- comparing rows ----

  predicate SameEntry(a: Entry, b: Entry)
  {
    a.id == b.id && a.path == b.path && a.name == b.name && a.file == b.file && a.shown == b.shown
  }

  predicate Differs(s: RowState, t: RowState, row: nat)
    requires row < |s.layout.visuals| && row < |t.layout.visuals|
  {
    s.layout.visuals[row] != t.layout.visuals[row]
    || match t.layout.visuals[row]
       case Header(_, _, _, _) => false
       case Row(id) =>
         || s.language != t.language
         || (id in s.selected) != (id in t.selected)
         || (id in s.querying) != (id in t.querying)
         || (s.focused == Some(id)) != (t.focused == Some(id))
         || (match (EntryOf(s, id), EntryOf(t, id))
             case (Some(a), Some(b)) => !SameEntry(a, b) || (a.path in s.cut) != (b.path in t.cut)
             case (_, _) => true)
  }

  function Common(s: RowState, t: RowState): (n: nat)
    ensures n <= |s.layout.visuals| && n <= |t.layout.visuals|
  {
    if |s.layout.visuals| < |t.layout.visuals| then |s.layout.visuals| else |t.layout.visuals|
  }

  function ChangedRows(s: RowState, t: RowState, n: nat): seq<nat>
    requires n <= Common(s, t)
  {
    if n == 0 then [] else ChangedRows(s, t, n - 1) + if Differs(s, t, n - 1) then [n - 1] else []
  }

  /** Entries that compare equal name the same extension, although the comparison never looks at WebDAV items. */
  lemma SameExtension(a: Entry, b: Entry)
    requires Listed(a) && Listed(b) && SameEntry(a, b)
    ensures KindExtension(a) == KindExtension(b)
  {
    hide Canonical, AfterLast;
    if a.remote.Some? && b.remote.Some? {
      var p :| NamedBy(a.name, a.remote.value.path, p);
      var q :| NamedBy(b.name, b.remote.value.path, q);
      LeafOfItem(p);
      LeafOfItem(q);
    }
  }

  lemma SameCell(s: RowState, t: RowState, row: nat)
    requires ListedEntries(s) && ListedEntries(t)
    requires row < |s.layout.visuals| && row < |t.layout.visuals| && !Differs(s, t, row)
    ensures CellOf(s, row) == CellOf(t, row)
  {
    hide KindExtension, Listed;
    if t.layout.visuals[row].Row? {
      var id := t.layout.visuals[row].id;
      SameExtension(EntryOf(s, id).value, EntryOf(t, id).value);
    }
  }

  /** Appending keeps the listing one of listed entries. */
  lemma AppendKeepsListed(s: RowState, tab: TabView, t: RowState, ranges: seq<(nat, nat)>)
    requires Extends(s, tab, t, ranges) && ListedEntries(s)
    requires forall i :: 0 <= i < |tab.pending| ==> Listed(tab.pending[i])
    ensures ListedEntries(t)
  {
    hide Listed, LayoutOk;
  }

  // ---- the notes lead to the new rows ----

  function SizeNotes(before: nat, now: nat): seq<Note>
  {
    (if now < before then [RowsRemoved(now, before - now)] else [])
    + if now > before then [RowsAdded(before, now - before)] else []
  }

  function RowNotes(rows: seq<nat>): (r: seq<Note>)
    ensures |r| == |rows| && forall i :: 0 <= i < |r| ==> r[i] == RowChanged(rows[i])
  {
    seq(|rows|, i requires 0 <= i < |rows| => RowChanged(rows[i]))
  }

  function Notes(s: RowState, t: RowState): seq<Note>
  {
    SizeNotes(|s.layout.visuals|, |t.layout.visuals|) + RowNotes(ChangedRows(s, t, Common(s, t)))
  }

  lemma {:induction false} FollowInTurn(view: seq<Cell>, a: seq<Note>, b: seq<Note>, now: RowState)
    ensures FollowAll(view, a + b, now) == FollowAll(FollowAll(view, a, now), b, now)
    decreases |b|
  {
    if b == [] {
      assert a + b == a;
    } else {
      var n := |b| - 1;
      FollowInTurn(view, a, b[..n], now);
      assert (a + b)[..|a + b| - 1] == a + b[..n];
    }
  }

  /** The view after the size changed: old rows as far as both reach, new rows beyond. */
  lemma SizeFollowed(s: RowState, t: RowState)
    ensures FollowAll(Cells(s), SizeNotes(|s.layout.visuals|, |t.layout.visuals|), t)
            == Cells(s)[..Common(s, t)] + Cells(t)[Common(s, t)..]
  {
    hide CellOf;
    var notes := SizeNotes(|s.layout.visuals|, |t.layout.visuals|);
    if notes != [] {
      assert notes[..|notes| - 1] == [];
      assert FollowAll(Cells(s), notes, t) == Follow(Cells(s), notes[0], t);
    }
  }

  lemma {:induction false} ChangedRowsAre(s: RowState, t: RowState, n: nat)
    requires n <= Common(s, t)
    ensures forall i :: i in ChangedRows(s, t, n) <==> 0 <= i < n && Differs(s, t, i)
    ensures forall i :: 0 <= i < |ChangedRows(s, t, n)| ==> ChangedRows(s, t, n)[i] < n
    decreases n
  {
    hide Differs;
    if n > 0 {
      ChangedRowsAre(s, t, n - 1);
    }
  }

  lemma {:induction false} RowsFollowed(view: seq<Cell>, rows: seq<nat>, t: RowState)
    requires |view| == |t.layout.visuals| && forall i :: 0 <= i < |rows| ==> rows[i] < |view|
    ensures |FollowAll(view, RowNotes(rows), t)| == |view|
    ensures forall i :: 0 <= i < |view| ==> FollowAll(view, RowNotes(rows), t)[i] == if i in rows then CellOf(t, i)
              else view[i]
    decreases |rows|
  {
    hide CellOf;
    if rows != [] {
      var n := |rows| - 1;
      RowsFollowed(view, rows[..n], t);
      assert RowNotes(rows)[..n] == RowNotes(rows[..n]);
      assert rows == rows[..n] + [rows[n]];
    }
  }

  /** A view of the old rows that follows the notifications shows the new rows: no row is ever stale. */
  lemma NoStaleRow(s: RowState, t: RowState)
    requires ListedEntries(s) && ListedEntries(t)
    ensures FollowAll(Cells(s), Notes(s, t), t) == Cells(t)
  {
    hide CellOf, Differs, FollowAll, ChangedRows, SizeNotes, ListedEntries;
    var n := Common(s, t);
    var rows := ChangedRows(s, t, n);
    var mid := Cells(s)[..n] + Cells(t)[n..];
    FollowInTurn(Cells(s), SizeNotes(|s.layout.visuals|, |t.layout.visuals|), RowNotes(rows), t);
    SizeFollowed(s, t);
    ChangedRowsAre(s, t, n);
    RowsFollowed(mid, rows, t);
    var view := FollowAll(Cells(s), Notes(s, t), t);
    forall i | 0 <= i < |mid| ensures view[i] == CellOf(t, i) {
      if i < n && !Differs(s, t, i) {
        SameCell(s, t, i);
      }
    }
  }

  // ---- the operation ----

  /** `replace_from`; images aside. */
  method ReplaceFrom(rows: DirectoryRows, next: DirectoryRows) returns (notes: seq<Note>)
    requires Inverse(next.state.layout.visuals, next.state.layout.positions)
    modifies rows, next
    ensures rows == next ==> rows.state == old(rows.state) && notes == []
    ensures rows != next ==>
              && rows.state == old(next.state) && next.state == old(rows.state)
              && notes == Notes(old(rows.state), old(next.state))
  {
    hide Differs, Inverse;
    notes := [];
    if rows == next {
      return;
    }
    var s, t := rows.state, next.state;
    var oldCount, newCount := |s.layout.visuals|, |t.layout.visuals|;
    var changed := FindChanged(s, t);
    rows.state, next.state := t, s;
    if newCount < oldCount {
      notes := notes + [RowsRemoved(newCount, oldCount - newCount)];
    }
    if newCount > oldCount {
      notes := notes + [RowsAdded(oldCount, newCount - oldCount)];
    }
    ChangedRowsAre(s, t, Common(s, t));
    var i := 0;
    while i < |changed|
      invariant 0 <= i <= |changed|
      invariant notes == SizeNotes(oldCount, newCount) + RowNotes(changed[..i])
      invariant rows.state == t && next.state == s
    {
      assert changed[i] in changed;
      var row := NotifiedRow(t, changed[i]);
      notes := notes + [RowChanged(row)];
      assert RowNotes(changed[..i + 1]) == RowNotes(changed[..i]) + [RowChanged(row)];
      i := i + 1;
    }
    assert changed[..i] == changed;
  }

  method FindChanged(s: RowState, t: RowState) returns (changed: seq<nat>)
    ensures changed == ChangedRows(s, t, Common(s, t))
  {
    hide Differs;
    changed := [];
    var i := 0;
    while i < Common(s, t)
      invariant 0 <= i <= Common(s, t)
      invariant changed == ChangedRows(s, t, i)
    {
      if Differs(s, t, i) {
        changed := changed + [i];
      }
      i := i + 1;
    }
  }

  /** A changed entry row is announced where its id stands now, which is the row itself. */
  method NotifiedRow(t: RowState, row: nat) returns (at: nat)
    requires Inverse(t.layout.visuals, t.layout.positions) && row < |t.layout.visuals|
    ensures at == row
  {
    match t.layout.visuals[row]
    case Row(id) => at := t.layout.positions[id];
    case Header(_, _, _, _) => at := row;
  }
}
