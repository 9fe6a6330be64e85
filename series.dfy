/** Values shared by every chart of the dashboard. */
module Series {

  /** An optional value (JavaScript's `undefined` / `null`). */
  datatype Option<+T> = None | Some(value: T)

  /** One plotted point: a month label such as "Jul '24" and its value. */
  datatype Point = Point(month: string, value: real)

  /** Pointer coordinates recorded when a drag starts or moves (`{ x, y }`). */
  datatype Anchor = Anchor(x: real, y: real)

  /** A note attached to a month (`{ month, note }`). */
  datatype Annotation = Annotation(month: string, note: string)

  /** The month labels of a series, in order. */
  function Months(data: seq<Point>): (r: seq<string>)
    ensures |r| == |data|
    ensures forall i :: 0 <= i < |data| ==> r[i] == data[i].month
  {
    if |data| == 0 then [] else Months(data[..|data| - 1]) + [data[|data| - 1].month]
  }
}
