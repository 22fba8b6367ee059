/** Go strings are immutable byte sequences: `len` counts bytes and `s[i]` is a byte. A Byte
    here is a character whose code is below 256, one representative per byte value, so that
    ASCII text such as error messages and schema type tags is written as ordinary literals. */
module GoStrings {

  type Byte = c: char | c as int < 0x100 witness 'a'

  type Bytes = seq<Byte>
}
