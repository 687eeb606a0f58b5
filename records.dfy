/**
 * One row of the tracker's table (`dados`), with the columns of its CSV header,
 * the six expense categories, and the two ways the "Registrar Dia" form builds a row.
 */
module Records {

  /** A daily row. Amounts, distance and hours are exact reals; `date` is the ISO text "YYYY-MM-DD". */
  datatype Record = Record(
    date: string,         // Data
    revenue: real,        // Valor Recebido
    km: real,             // KM Rodado
    fuel: real,           // Combustível
    hours: real,          // Horas Trabalhadas
    food: real,           // Gasto Comida
    attendant: real,      // Gasto Frentista
    carWash: real,        // Gasto Lavagem
    garage: real,         // Gasto Oficina
    other: real,          // Gasto Outro
    otherDesc: string,    // Desc Outro
    worked: bool,         // Trabalhou
    target: real,         // Meta
    notes: string         // Observações
  )

  /** The six expense columns, in the order the summaries list them. */
  datatype Category = Fuel | Food | Attendant | CarWash | Garage | Other

  const Categories: seq<Category> := [Fuel, Food, Attendant, CarWash, Garage, Other]

  /** The cell of `r` in the column of category `c`. */
  function Cost(r: Record, c: Category): real
  {
    match c
    case Fuel => r.fuel
    case Food => r.food
    case Attendant => r.attendant
    case CarWash => r.carWash
    case Garage => r.garage
    case Other => r.other
  }

  /** The sum of the six expense cells of one row. */
  function RowExpense(r: Record): real
  {
    r.fuel + r.food + r.attendant + r.carWash + r.garage + r.other
  }

  function Revenue(r: Record): real
  {
    r.revenue
  }

  /** Revenue minus expenses of one row. */
  function RowProfit(r: Record): real
  {
    r.revenue - RowExpense(r)
  }

  /** What the number inputs (minimum 0.0) let through: no numeric field is negative. */
  predicate NonNegative(r: Record)
  {
    r.revenue >= 0.0 && r.km >= 0.0 && r.fuel >= 0.0 && r.hours >= 0.0 &&
    r.food >= 0.0 && r.attendant >= 0.0 && r.carWash >= 0.0 && r.garage >= 0.0 &&
    r.other >= 0.0 && r.target >= 0.0
  }

  /** Every expense category of a non-negative row is non-negative. */
  lemma CostNonNegative(r: Record, c: Category)
    requires NonNegative(r)
    ensures 0.0 <= Cost(r, c) <= RowExpense(r)
  {
  }

  /**
   * The row saved by "Salvar Registro": marked as worked, carrying every entered
   * value; the description of "Outros" is only asked for, and so only kept, when
   * that expense is positive.
   */
  function WorkedRecord(date: string, revenue: real, km: real, fuel: real, hours: real, target: real,
                        food: real, attendant: real, carWash: real, garage: real, other: real,
                        otherDesc: string, notes: string): (r: Record)
    ensures r.worked && r.date == date && r.notes == notes
    ensures r.revenue == revenue && r.km == km && r.hours == hours && r.target == target
    ensures Cost(r, Fuel) == fuel && Cost(r, Food) == food && Cost(r, Attendant) == attendant
    ensures Cost(r, CarWash) == carWash && Cost(r, Garage) == garage && Cost(r, Other) == other
    ensures r.otherDesc == (if other > 0.0 then otherDesc else "")
    ensures RowProfit(r) == revenue - (fuel + food + attendant + carWash + garage + other)
  {
    Record(date, revenue, km, fuel, hours, food, attendant, carWash, garage, other,
           if other > 0.0 then otherDesc else "", true, target, notes)
  }

  /** A worked row built from values the number inputs accept is non-negative. */
  lemma WorkedRecordNonNegative(date: string, revenue: real, km: real, fuel: real, hours: real, target: real,
                                food: real, attendant: real, carWash: real, garage: real, other: real,
                                otherDesc: string, notes: string)
    requires revenue >= 0.0 && km >= 0.0 && fuel >= 0.0 && hours >= 0.0 && target >= 0.0
    requires food >= 0.0 && attendant >= 0.0 && carWash >= 0.0 && garage >= 0.0 && other >= 0.0
    ensures NonNegative(WorkedRecord(date, revenue, km, fuel, hours, target, food, attendant, carWash,
                                     garage, other, otherDesc, notes))
  {
  }

  /** Every numeric cell zero and every text cell empty. */
  predicate Blank(r: Record)
  {
    r.revenue == 0.0 && r.km == 0.0 && r.fuel == 0.0 && r.hours == 0.0 &&
    r.food == 0.0 && r.attendant == 0.0 && r.carWash == 0.0 && r.garage == 0.0 &&
    r.other == 0.0 && r.target == 0.0 && r.otherDesc == "" && r.notes == ""
  }

  /** The row saved by "Salvar como dia não trabalhado": not worked, every other cell zero or empty. */
  function DayOffRecord(date: string): (r: Record)
    ensures !r.worked && r.date == date && Blank(r)
    ensures NonNegative(r) && RowExpense(r) == 0.0 && RowProfit(r) == 0.0
  {
    Record(date, 0.0, 0.0, 0.0, 0.0, 0.0, 0.0, 0.0, 0.0, 0.0, "", false, 0.0, "")
  }
}
