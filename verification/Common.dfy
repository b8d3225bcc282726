/** Small notions shared by the firmware and the host models.  A byte of the serial stream is a
    `char`; nothing in those models depends on its code being below 256. */
module Common {

  const CR: char := '\r'
  const LF: char := '\n'
  const NEWLINE: string := "\r\n"

  /** What the host waits for when it leaves data mode. */
  const EXIT_EVENT: string := "+IND=DATAMODE,0\r\n"

  function Min(a: int, b: int): int {
    if a < b then a else b
  }

  predicate IsEol(c: char) {
    c == CR || c == LF
  }

  /** `n` plus signs. */
  function Pluses(n: nat): string {
    seq(n, _ => '+')
  }

  /** The longest prefix of `bytes` that fits in `room` places: what ring_buf_put stores. */
  function Fitting(bytes: string, room: nat): string {
    bytes[..Min(|bytes|, room)]
  }

  /** A 32-bit counter after adding `n`. */
  function Add32(counter: nat, n: nat): nat {
    (counter + n) % 0x1_0000_0000
  }

  function Digit(d: nat): char
    requires d < 10
  {
    "0123456789"[d]
  }

  /** The decimal text printed by %u. */
  function Decimal(n: nat): string {
    if n < 10 then [Digit(n)] else Decimal(n / 10) + [Digit(n % 10)]
  }

  lemma {:induction false} DecimalAscii(n: nat)
    ensures forall i | 0 <= i < |Decimal(n)| :: '0' <= Decimal(n)[i] <= '9'
    decreases n
  {
    if n >= 10 {
      DecimalAscii(n / 10);
    }
  }

  /** The stream that was cut into `chunks`. */
  function Join(chunks: seq<string>): string {
    if chunks == [] then "" else chunks[0] + Join(chunks[1..])
  }

  lemma JoinSnoc(chunks: seq<string>, chunk: string)
    ensures Join(chunks + [chunk]) == Join(chunks) + chunk
  {
    if chunks == [] {
      assert chunks + [chunk] == [chunk];
    } else {
      assert (chunks + [chunk])[1..] == chunks[1..] + [chunk];
      JoinSnoc(chunks[1..], chunk);
    }
  }
}
