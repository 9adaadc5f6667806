// Values shared by every part of the model.
module Common {

  datatype Option<+T> = None | Some(value: T)

  // Epoch milliseconds. Clock readings are arguments of the operations that take them.
  type Millis = int

  function Min(a: int, b: int): int { if a <= b then a else b }

  function Max(a: int, b: int): int { if a <= b then b else a }

  // The order SQLite gives to `ORDER BY a, b, c, d`.
  datatype Rank = Rank(first: int, second: int, third: int, fourth: int)

  predicate Before(a: Rank, b: Rank) {
    || a.first < b.first
    || (a.first == b.first && a.second < b.second)
    || (a.first == b.first && a.second == b.second && a.third < b.third)
    || (a.first == b.first && a.second == b.second && a.third == b.third && a.fourth < b.fourth)
  }
}
