/** The wall clock behind every `datetime.now()` of the core. The clock is an
    oracle: its k-th reading is fixed in advance, and each call takes the next. */
module Clocks {
  /** One reading of `datetime.now()` in each format the core renders it in:
      `%Y-%m-%d`, `%H%M%S`, `%Y年%m月%d日 %H:%M:%S` and ISO 8601. */
  datatype Moment = Moment(day: string, hms: string, display: string, iso: string)

  class Clock {
    /** The clock's k-th reading. */
    const readings: nat -> Moment
    /** How many times the clock has been read. */
    var ticks: nat

    constructor (readings: nat -> Moment)
      ensures this.readings == readings && ticks == 0
    {
      this.readings := readings;
      ticks := 0;
    }

    /** `datetime.now()`: the next reading. */
    method Now() returns (m: Moment)
      modifies this
      ensures ticks == old(ticks) + 1
      ensures m == readings(old(ticks))
    {
      m := readings(ticks);
      ticks := ticks + 1;
    }
  }
}
