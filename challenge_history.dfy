/**
 * `GET /api/challenge/history`: the signed-in user's progress records,
 * newest clear first, each with the name of its folder. The two queries
 * become tables passed in: the user's records in the order the database
 * returns them, and the folder table.
 */
module ChallengeHistory {
  import opened Wrappers

  /** A progress record as the query selects it. */
  datatype Row = Row(folderId: int, totalQuestions: int, clearCount: int, lastClearedAt: int, mode: string)

  /** A folder as the query selects it. */
  datatype Folder = Folder(id: int, name: string)

  /** A history entry: the record's fields and its folder's name. */
  datatype Entry = Entry(row: Row, folderName: string)

  datatype Response = Forbidden | History(entries: seq<Entry>)

  /** The name shown for a folder that cannot be found or has no name. */
  const UnknownFolder: string := "不明なフォルダ"

  /** No value occurs twice. */
  predicate Distinct(ids: seq<int>) {
    forall i, j :: 0 <= i < j < |ids| ==> ids[i] != ids[j]
  }

  /** `[...new Set(ids)]`: each value once, at its first occurrence. */
  function Dedupe(ids: seq<int>): (r: seq<int>)
    ensures Distinct(r)
    ensures forall x :: x in r <==> x in ids
    ensures |r| <= |ids|
  {
    if ids == [] then []
    else
      var init := ids[..|ids| - 1];
      var last := ids[|ids| - 1];
      assert ids == init + [last];
      var r := Dedupe(init) + (if last in init then [] else [last]);
      assert forall x :: x in Dedupe(init) ==> x in init;
      r
  }

  /** The folder ids of the records. */
  function FolderIds(rows: seq<Row>): (ids: seq<int>)
    ensures |ids| == |rows| && forall i :: 0 <= i < |rows| ==> ids[i] == rows[i].folderId
  {
    seq(|rows|, i requires 0 <= i < |rows| => rows[i].folderId)
  }

  /**
   * The folders whose id was asked for (`id: { in: ids }`), in table order.
   * The folder table's own query, kept beside the history records it joins.
   */
  function FoldersWithIds(table: seq<Folder>, ids: seq<int>): (r: seq<Folder>)
    ensures forall f :: f in r <==> f in table && f.id in ids
  {
    if table == [] then []
    else
      var init := table[..|table| - 1];
      var last := table[|table| - 1];
      assert table == init + [last];
      FoldersWithIds(init, ids) + (if last.id in ids then [last] else [])
  }

  /** The `reduce` into a map from id to name: a later folder with the same id overwrites an earlier one. */
  function NameMap(folders: seq<Folder>): (m: map<int, string>)
    ensures forall id :: id in m <==> exists f :: f in folders && f.id == id
    ensures forall f :: f in folders ==> f.id in m
    ensures |folders| > 0 ==> m[folders[|folders| - 1].id] == folders[|folders| - 1].name
  {
    if folders == [] then map[]
    else
      var init := folders[..|folders| - 1];
      var last := folders[|folders| - 1];
      assert folders == init + [last];
      NameMap(init)[last.id := last.name]
  }

  /** `folderMap[id] || "不明なフォルダ"`. */
  function FolderName(m: map<int, string>, id: int): (name: string)
    ensures name != []
    ensures id in m && m[id] != [] ==> name == m[id]
    ensures !(id in m && m[id] != []) ==> name == UnknownFolder
  {
    if id in m && m[id] != [] then m[id] else UnknownFolder
  }

  /**
   * The route: 403 without a session; otherwise one entry per record, in
   * the records' order, with the record unchanged and its folder's name.
   */
  function Get(hasSession: bool, rows: seq<Row>, folderTable: seq<Folder>): (r: Response)
    ensures !hasSession <==> r == Forbidden
    ensures r.History? ==>
      var m := NameMap(FoldersWithIds(folderTable, Dedupe(FolderIds(rows))));
      && |r.entries| == |rows|
      && forall i :: 0 <= i < |rows| ==>
           r.entries[i].row == rows[i] && r.entries[i].folderName == FolderName(m, rows[i].folderId)
  {
    if !hasSession then Forbidden
    else
      var folderIds := Dedupe(FolderIds(rows));
      var m := NameMap(FoldersWithIds(folderTable, folderIds));
      History(seq(|rows|, i requires 0 <= i < |rows| => Entry(rows[i], FolderName(m, rows[i].folderId))))
  }

  /** No two folders of the table share an id. */
  predicate UniqueIds(table: seq<Folder>) {
    forall a, b :: 0 <= a < b < |table| ==> table[a].id != table[b].id
  }

  /**
   * With folder ids unique in the folder table, a record's name is its
   * folder's name when that folder exists and has a name, and the
   * unknown-folder name otherwise.
   */
  lemma HistoryNames(rows: seq<Row>, folderTable: seq<Folder>, i: nat)
    requires 0 <= i < |rows| && UniqueIds(folderTable)
    ensures var name := Get(true, rows, folderTable).entries[i].folderName;
      && (forall f :: f in folderTable && f.id == rows[i].folderId && f.name != [] ==> name == f.name)
      && ((forall f :: f in folderTable && f.id == rows[i].folderId ==> f.name == []) ==> name == UnknownFolder)
  {
    var ids := Dedupe(FolderIds(rows));
    var m := NameMap(FoldersWithIds(folderTable, ids));
    var id := rows[i].folderId;
    var name := Get(true, rows, folderTable).entries[i].folderName;
    assert name == FolderName(m, id);
    assert id in ids by {
      assert FolderIds(rows)[i] == id;
    }
    forall f | f in folderTable && f.id == id
      ensures m[id] == f.name
    {
      NameOfTableFolder(folderTable, ids, f);
    }
    if id in m {
      var f :| f in FoldersWithIds(folderTable, ids) && f.id == id;
      NameOfTableFolder(folderTable, ids, f);
    }
  }

  /** A folder of the table whose id was asked for gets its own name in the map. */
  lemma NameOfTableFolder(table: seq<Folder>, ids: seq<int>, f: Folder)
    requires UniqueIds(table) && f in table && f.id in ids
    ensures var m := NameMap(FoldersWithIds(table, ids)); f.id in m && m[f.id] == f.name
  {
    var chosen := FoldersWithIds(table, ids);
    forall g, h | g in chosen && h in chosen && g.id == h.id
      ensures g == h
    {
      var a :| 0 <= a < |table| && table[a] == g;
      var b :| 0 <= b < |table| && table[b] == h;
      assert a == b;
    }
    UniqueIdName(chosen, f);
  }

  /** In a list of folders with unique ids the map gives each folder its own name. */
  lemma {:induction false} UniqueIdName(folders: seq<Folder>, f: Folder)
    requires f in folders
    requires forall g, h :: g in folders && h in folders && g.id == h.id ==> g == h
    ensures NameMap(folders)[f.id] == f.name
  {
    var init := folders[..|folders| - 1];
    var last := folders[|folders| - 1];
    assert folders == init + [last];
    if f != last {
      UniqueIdName(init, f);
    }
  }
}
