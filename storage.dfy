/**
 * The record store: the CSV file `dados_uber.csv` and the in-memory table `dados`
 * that each run of the script loads from it, extends with one row and writes back in full.
 */
module Storage {
  import opened Optional
  import opened Records

  /** The table a load yields: the file's rows, or the empty table with the fixed header when there is no file. */
  function Loaded(file: Option<seq<Record>>): (t: seq<Record>)
    ensures file == None ==> t == []
    ensures file != None ==> t == file.value
  {
    match file
    case None => []
    case Some(rows) => rows
  }

  class Store {
    /** The content of `dados_uber.csv`; `None` before the first save. */
    var file: Option<seq<Record>>
    /** The table `dados` of the current run. */
    var rows: seq<Record>

    /** Starts a run against the given file and loads it (`dados = carregar_dados()`). */
    constructor (file: Option<seq<Record>>)
      ensures this.file == file
      ensures rows == Loaded(file)
      ensures file == None ==> rows == []
    {
      this.file := file;
      rows := [];
      new;
      Load();
    }

    /** `carregar_dados`: reads the whole file; a missing file is the empty table, not an error. */
    method Load()
      modifies this`rows
      ensures rows == Loaded(file)
      ensures file == None ==> rows == []
    {
      rows := Loaded(file);
    }

    /** `salvar_dados`: replaces the whole file with the current table. */
    method Save()
      modifies this`file
      ensures file == Some(rows)
      ensures Loaded(file) == rows
    {
      file := Some(rows);
    }

    /** `pd.concat([dados, novo_dado], ignore_index=True)`: the new row becomes the last one, earlier rows stay as they were. */
    method Append(r: Record)
      modifies this`rows
      ensures rows == old(rows) + [r]
      ensures |rows| == |old(rows)| + 1 && rows[|old(rows)|] == r
    {
      rows := rows + [r];
    }

    /** "Salvar Registro": builds the worked row from the entered values, appends it and saves the table. */
    method RegisterWorked(date: string, revenue: real, km: real, fuel: real, hours: real, target: real,
                          food: real, attendant: real, carWash: real, garage: real, other: real,
                          otherDesc: string, notes: string)
      modifies this
      ensures rows == old(rows) + [WorkedRecord(date, revenue, km, fuel, hours, target, food, attendant,
                                                carWash, garage, other, otherDesc, notes)]
      ensures file == Some(rows)
    {
      var r := WorkedRecord(date, revenue, km, fuel, hours, target, food, attendant, carWash, garage,
                            other, otherDesc, notes);
      Append(r);
      Save();
    }

    /** "Salvar como dia não trabalhado": appends the blank day-off row and saves the table. */
    method RegisterDayOff(date: string)
      modifies this
      ensures rows == old(rows) + [DayOffRecord(date)]
      ensures file == Some(rows)
    {
      Append(DayOffRecord(date));
      Save();
    }
  }
}
