/** The machine's integers, where their width matters. */
module MachineInts {

  const U32: nat := 0x1_0000_0000
  const U64: nat := 0x1_0000_0000_0000_0000

  type Byte = x: int | 0 <= x < 256

  function AsU32(x: int): nat {
    x % U32
  }

  function AsI32(x: int): int {
    var u := AsU32(x);
    if u < 0x8000_0000 then u else u - U32
  }

  function AsU64(x: int): nat {
    x % U64
  }

  function AsI64(x: int): int {
    var u := AsU64(x);
    if u < 0x8000_0000_0000_0000 then u else u - U64
  }
}
