/**
 * What survives between reruns of the script on one server: the CSV file and the
 * memo that `@st.cache_data` keeps for `carregar_dados`. The memo is filled by the
 * first load and never refreshed, so, as written, each save rebuilds the file from
 * the table as it was at the first load. `SaveRun` is the intended behaviour,
 * where a save also clears the memo.
 */
module Session {
  import opened Optional
  import opened Records
  import opened Storage

  datatype Server = Server(file: Option<seq<Record>>, memo: Option<seq<Record>>)

  /** The memo, if there is one, still holds what the file holds. */
  predicate Coherent(s: Server)
  {
    s.memo == None || s.memo == Some(Loaded(s.file))
  }

  /** `carregar_dados()` under `@st.cache_data`: the memo when there is one, else the file, which is then memoized. */
  function CachedLoad(s: Server): (r: (seq<Record>, Server))
    ensures r.1.file == s.file && r.1.memo == Some(r.0)
    ensures s.memo == None ==> r.0 == Loaded(s.file)
    ensures s.memo != None ==> r == (s.memo.value, s)
  {
    match s.memo
    case Some(t) => (t, s)
    case None => (Loaded(s.file), s.(memo := Some(Loaded(s.file))))
  }

  /** A rerun that only reads the table (any page but a save). */
  function ViewRun(s: Server): (s': Server)
    ensures s'.file == s.file && s'.memo != None
  {
    CachedLoad(s).1
  }

  /** A rerun that saves a row, as written: load through the memo, append, write the file; the memo is kept. */
  function SaveRunAsWritten(s: Server, r: Record): (s': Server)
    ensures s'.memo == CachedLoad(s).1.memo && s'.memo != None
    ensures s'.file == Some(s'.memo.value + [r])
  {
    var (t, s1) := CachedLoad(s);
    s1.(file := Some(t + [r]))
  }

  /** As written, the saved file is the memo plus the new row, whatever the file held before. */
  lemma SaveRunAsWrittenUsesMemo(s: Server, r: Record)
    requires s.memo != None
    ensures SaveRunAsWritten(s, r).file == Some(s.memo.value + [r])
    ensures SaveRunAsWritten(s, r).memo == s.memo
  {
  }

  /**
   * The lost update: on a fresh server, open the page, save a day, save another.
   * The file ends up holding only the second row, and a later view still shows
   * the empty table although the file is not empty.
   */
  lemma CachedSavesLoseFirstRow(r1: Record, r2: Record)
    ensures var s := SaveRunAsWritten(SaveRunAsWritten(ViewRun(Server(None, None)), r1), r2);
            s.file == Some([r2]) && CachedLoad(s).0 == []
  {
    var s0 := ViewRun(Server(None, None));
    assert s0.memo == Some([]);
    SaveRunAsWrittenUsesMemo(s0, r1);
    SaveRunAsWrittenUsesMemo(SaveRunAsWritten(s0, r1), r2);
    assert [] + [r2] == [r2];
  }

  /** A rerun that saves a row and then clears the memo, so that the next load rereads the file. */
  function SaveRun(s: Server, r: Record): (s': Server)
    ensures Coherent(s')
    ensures Coherent(s) ==> s'.file == Some(Loaded(s.file) + [r])
  {
    var (t, s1) := CachedLoad(s);
    Server(Some(t + [r]), None)
  }

  /** A reading rerun keeps the memo coherent and shows exactly what the file holds. */
  lemma ViewRunCoherent(s: Server)
    requires Coherent(s)
    ensures Coherent(ViewRun(s))
    ensures CachedLoad(s).0 == Loaded(s.file)
  {
  }

  /** A series of saves, one row each, in order. */
  function SaveRuns(s: Server, rs: seq<Record>): Server
    decreases rs
  {
    if rs == [] then s else SaveRuns(SaveRun(s, rs[0]), rs[1..])
  }

  /** With the memo cleared on save, every saved row stays in the file, in the order saved. */
  lemma {:induction false} SaveRunsKeepEveryRow(s: Server, rs: seq<Record>)
    requires Coherent(s)
    ensures Coherent(SaveRuns(s, rs))
    ensures Loaded(SaveRuns(s, rs).file) == Loaded(s.file) + rs
    decreases rs
  {
    if rs == [] {
      assert Loaded(s.file) + rs == Loaded(s.file);
    } else {
      var s1 := SaveRun(s, rs[0]);
      SaveRunsKeepEveryRow(s1, rs[1..]);
      assert Loaded(s.file) + rs == Loaded(s.file) + [rs[0]] + rs[1..];
    }
  }
}
