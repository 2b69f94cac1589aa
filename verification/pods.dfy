/**
 * The two fields of a Kubernetes pod object that the utilities read.
 *
 * Go strings are immutable byte sequences: `len` counts bytes and slicing
 * is by byte offset, so a string is modelled as a sequence of bytes.
 */
module Pods {

  newtype byte = b: int | 0 <= b < 0x100

  /** A Go `string`: its bytes, in order. */
  type GoString = seq<byte>

  /** A pod, abstracted to its object name and its name-generation prefix. */
  datatype Pod = Pod(name: GoString, generateName: GoString)
}
