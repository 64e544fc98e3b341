/**
 Optional values and time stamps, as every module uses them.

 A stamp is a whole number of seconds since 1970; 0 stands for the empty string. Module Timestamps
 proves that comparing stamps is comparing the printed text the stored records hold.
 */
module Common {

  type Byte = b: int | 0 <= b < 256

  datatype Option<+T> = None | Some(value: T)

  type Stamp = int

  const NONE: Stamp := 0
  const YEAR_2020: Stamp := 1577836800
  const YEAR_2101: Stamp := 4133980800
  const YEAR_10000: Stamp := 253402300800

  // acmeorder.Time: a canonical whole second from 2020 to 9999.
  predicate IsTime(s: Stamp) { YEAR_2020 <= s < YEAR_10000 }
}
