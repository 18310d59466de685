/** Values shared by every module of the model. */
module Base {

  /** An optional value; `None` stands for Python's `None` or a missing key. */
  datatype Option<+T> = None | Some(value: T) {
    function GetOr(default: T): T
    {
      match this
      case Some(v) => v
      case None => default
    }
  }

  /** A Python value as the lenient parsers of the services receive it from
      forms, catalogue rows and JSON documents: `None`, a number (an `int`, a
      `float` or a `bool`, read as its exact value) or a string. */
  datatype Py = PyNone | PyNum(num: real) | PyStr(str: string)

  function Max(a: int, b: int): int { if a >= b then a else b }

  function Min(a: int, b: int): int { if a <= b then a else b }

  function Abs(a: int): nat { if a < 0 then -a else a }
}
