/**
 What a row of the list shows, field by field, and when two rows compare equal
 (src/app/directory_model.rs:119-157, 457-521, src/app.rs:19616-19630).
 */
module RowCells {
  import opened Prelude
  import opened RowModel
  import opened RowAppend
  import opened RowReplace

  // ---- names ----

  /** The extension of a name is what follows its last dot, unless that is empty or the dot begins the name. */
  lemma ExtensionMeans(name: string, tail: string)
    ensures Extension(name) == Some(tail) <==>
              tail != "" && '.' !in tail && exists stem :: stem != "" && name == stem + "." + tail
  {
    if Extension(name) == Some(tail) {
      var stem := AfterSplits(name, Dot);
      assert name == stem + "." + tail;
    }
    if stem :| stem != "" && name == stem + "." + tail && tail != "" && '.' !in tail {
      SplitsAfter(stem, ".", tail, Dot);
    }
  }

  /** `AfterLast` cuts the text at the last character that stops. */
  lemma {:induction false} AfterSplits(text: string, stop: char -> bool) returns (front: string)
    requires AfterLast(text, stop).Some?
    ensures |front| < |text| && stop(text[|front|]) && text == front + [text[|front|]] + AfterLast(text, stop).value
    ensures forall c :: c in AfterLast(text, stop).value ==> !stop(c)
    decreases |text|
  {
    var n := |text| - 1;
    front := text[..n];
    if !stop(text[n]) {
      front := AfterSplits(text[..n], stop);
      assert text == text[..n] + [text[n]];
    }
  }

  lemma {:induction false} SplitsAfter(front: string, at: string, tail: string, stop: char -> bool)
    requires |at| == 1 && stop(at[0]) && forall c :: c in tail ==> !stop(c)
    ensures AfterLast(front + at + tail, stop) == Some(tail)
    decreases |tail|
  {
    var text := front + at + tail;
    if tail != "" {
      var n := |tail| - 1;
      SplitsAfter(front, at, tail[..n], stop);
      assert text[..|text| - 1] == front + at + tail[..n] && tail == tail[..n] + [tail[n]];
    } else {
      assert text[|text| - 1] == at[0];
    }
  }

  /** A path's file name is its last component, and empty only without components. */
  lemma FileNameMeans(path: Path)
    ensures var parts := path.parent + if path.leaf == "" then [] else [path.leaf];
            FileName(path) == if parts == [] then "" else parts[|parts| - 1]
  {
  }

  /** A WebDAV path is its segments, each with a slash in front. */
  lemma CanonicalMeans(segments: seq<string>, last: string)
    ensures Canonical([last]) == "/" + last
    ensures segments != [] ==> Canonical(segments + [last]) == Canonical(segments) + "/" + last
  {
    assert segments != [] ==> (segments + [last])[..|segments|] == segments;
  }

  /** A file of a WebDAV listing names the extension of its own name, another file that of its path; folders none. */
  lemma KindMeans(e: Entry)
    ensures !e.file ==> KindExtension(e).None?
    ensures e.file && Listed(e) && e.remote.Some? ==> KindExtension(e) == Extension(e.name)
    ensures e.file && e.remote.None? ==> KindExtension(e) == Extension(FileName(e.path))
  {
    hide Canonical, AfterLast;
    if e.file && Listed(e) && e.remote.Some? {
      var segments :| NamedBy(e.name, e.remote.value.path, segments);
      LeafOfItem(segments);
    }
  }

  // ---- cells ----

  /** The entry a row shows: the update for its id, and only without one the entry of the snapshot. */
  ghost predicate ShownAs(s: RowState, id: nat, e: Entry)
  {
    if id in s.updates then e == s.updates[id]
    else id in s.indices && s.indices[id] < |s.entries| && e == s.entries[s.indices[id]]
  }

  /** A row shows its header, or its entry with the marks of its id and path. */
  lemma CellMeans(s: RowState, row: nat, e: Entry)
    requires row < |s.layout.visuals|
    ensures var cell := CellOf(s, row);
            match s.layout.visuals[row]
            case Header(_, title, detail, count) => cell == HeaderCell(title, detail, count)
            case Row(id) =>
              && (cell.NoCell? <==> forall x :: !ShownAs(s, id, x))
              && (ShownAs(s, id, e) ==>
                    && cell.EntryCell? && cell.id == e.id && cell.file == e.file && cell.name == e.name
                    && cell.shown == e.shown && cell.extension == KindExtension(e) && cell.language == s.language
                    && (cell.selected <==> id in s.selected) && (cell.focused <==> s.focused == Some(id))
                    && (cell.cut <==> e.path in s.cut) && (cell.querying <==> id in s.querying))
  {
    hide KindExtension;
    match s.layout.visuals[row]
    case Header(_, _, _, _) =>
    case Row(id) =>
      if id in s.updates {
        assert ShownAs(s, id, s.updates[id]);
      } else if id in s.indices && s.indices[id] < |s.entries| {
        assert ShownAs(s, id, s.entries[s.indices[id]]);
      }
  }

  // ---- comparing rows ----

  /** What the comparison looks at: everything a row shows but its extension, and the path behind it. */
  datatype Look = Look(id: nat, path: Path, name: string, file: bool, shown: Shown, language: Language, selected: bool,
                       focused: bool, cut: bool, querying: bool)

  ghost function LookOf(s: RowState, id: nat, e: Entry): Look
  {
    Look(e.id, e.path, e.name, e.file, e.shown, s.language, id in s.selected, s.focused == Some(id), e.path in s.cut,
         id in s.querying)
  }

  /**
   Rows compare equal exactly if they are the same header, or show known entries of the same id that look
   alike: no row is announced for nothing.
   */
  lemma DiffersMeans(s: RowState, t: RowState, row: nat)
    requires row < |s.layout.visuals| && row < |t.layout.visuals|
    ensures !Differs(s, t, row) <==>
              && s.layout.visuals[row] == t.layout.visuals[row]
              && (t.layout.visuals[row].Row? ==>
                    var id := t.layout.visuals[row].id;
                    exists a, b :: ShownAs(s, id, a) && ShownAs(t, id, b) && LookOf(s, id, a) == LookOf(t, id, b))
  {
    if t.layout.visuals[row].Row? {
      var id := t.layout.visuals[row].id;
      var a, b := EntryOf(s, id), EntryOf(t, id);
      assert forall x :: ShownAs(s, id, x) <==> a == Some(x);
      assert forall x :: ShownAs(t, id, x) <==> b == Some(x);
      if a.Some? && b.Some? {
        assert ShownAs(s, id, a.value) && ShownAs(t, id, b.value);
        LooksCompared(s, t, id, a.value, b.value);
      }
    }
  }

  lemma LooksCompared(s: RowState, t: RowState, id: nat, a: Entry, b: Entry)
    ensures LookOf(s, id, a) == LookOf(t, id, b) <==>
              && SameEntry(a, b) && s.language == t.language && (id in s.selected <==> id in t.selected)
              && (s.focused == Some(id) <==> t.focused == Some(id)) && (a.path in s.cut <==> b.path in t.cut)
              && (id in s.querying <==> id in t.querying)
  {
  }

  /**
   What is announced when rows are swapped: the rows gone at the end, or those new there, if there are any,
   and every row both have that does not compare equal; nothing else.
   */
  lemma NotesMean(s: RowState, t: RowState, note: Note)
    ensures var before, now := |s.layout.visuals|, |t.layout.visuals|;
            note in Notes(s, t) <==>
              match note
              case RowsRemoved(at, count) => at == now < before && count == before - now
              case RowsAdded(at, count) => at == before < now && count == now - before
              case RowChanged(row) => row < before && row < now && Differs(s, t, row)
  {
    hide Differs;
    var common := Common(s, t);
    ChangedRowsAre(s, t, common);
    var size, rows := SizeNotes(|s.layout.visuals|, |t.layout.visuals|), RowNotes(ChangedRows(s, t, common));
    assert note in Notes(s, t) <==> note in size || note in rows;
    if note.RowChanged? {
      if note.row in ChangedRows(s, t, common) {
        var i :| 0 <= i < |rows| && ChangedRows(s, t, common)[i] == note.row;
        assert rows[i] == note;
      }
    }
  }
}
