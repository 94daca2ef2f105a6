/**
  Types shared by the driver models: the C fixed-width integers the drivers
  use, explicit 32-bit wrap-around, a nullable value, and the driver result code.
 */
module Common {

  /** C `uint8_t`. */
  type uint8 = x: int | 0 <= x < 0x100

  /** C `uint32_t`. */
  type uint32 = x: int | 0 <= x < 0x1_0000_0000

  const Uint32Modulus: int := 0x1_0000_0000

  /** The value an unsigned 32-bit C expression takes: the exact value reduced modulo 2^32. */
  function Wrap32(x: int): uint32
  {
    x % Uint32Modulus
  }

  /** A value that may be absent; stands for a C pointer that may be NULL. */
  datatype Option<T> = None | Some(value: T)

  /** `myRet_t`: the only result code the drivers report. */
  datatype Ret = OK | Fail
}
