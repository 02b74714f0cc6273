/** The string hash of the switch: table-driven CRC-32 against its bit-serial definition,
    the reflected polynomial 0xedb88320 of section 8 of RFC 1952.

    The word operations are named functions so that the algebra below can be carried out on
    the names, with the bit vectors hidden. */
module Crc32 {

  const POLYNOMIAL: bv32 := 0xedb88320
  const BYTE_BITS: nat := 8

  function Xor(a: bv32, b: bv32): bv32 { a ^ b }

  function Half(a: bv32): bv32 { a >> 1 }

  predicate Odd(a: bv32) { a & 1 == 1 }

  function LowBit(a: bv32): bv32 { a & 1 }

  function LowByte(a: bv32): (byte: bv32)
    ensures byte < 256
  {
    a & 0xff
  }

  function AsByte(a: bv32): bv8
    requires a < 256
  {
    a as bv8
  }

  // ----- the definition, one message bit at a time -----

  /** One shift of the register; the bit shifted out feeds back. */
  function Step(crc: bv32): bv32 {
    if Odd(crc) then Xor(Half(crc), POLYNOMIAL) else Half(crc)
  }

  /** The low `n` bits of a byte, least significant first, each added to the register. */
  function FeedBits(crc: bv32, byte: bv32, n: nat): bv32
    decreases n
  {
    if n == 0 then crc else FeedBits(Step(Xor(crc, LowBit(byte))), Half(byte), n - 1)
  }

  function FeedBytes(crc: bv32, message: seq<bv8>): bv32
    decreases |message|
  {
    if message == [] then crc else FeedBytes(FeedBits(crc, message[0] as bv32, BYTE_BITS), message[1..])
  }

  function Crc(message: seq<bv8>): bv32 {
    Xor(FeedBytes(0xffffffff, message), 0xffffffff)
  }

  // ----- the hash functor -----

  /** `crc_table`, as a function of the index: sixteen rows of sixteen. */
  function CrcTable(i: bv32): bv32 {
    if i < 128 then
      if i < 64 then
        if i < 32 then (if i < 16 then Row0(i) else Row1(i)) else (if i < 48 then Row2(i) else Row3(i))
      else
        if i < 96 then (if i < 80 then Row4(i) else Row5(i)) else (if i < 112 then Row6(i) else Row7(i))
    else
      if i < 192 then
        if i < 160 then (if i < 144 then Row8(i) else Row9(i)) else (if i < 176 then Row10(i) else Row11(i))
      else
        if i < 224 then (if i < 208 then Row12(i) else Row13(i)) else (if i < 240 then Row14(i) else Row15(i))
  }

  function Row0(i: bv32): bv32 {
    if i < 4 then
      if i == 0 then 0x00000000 else if i == 1 then 0x77073096 else if i == 2 then 0xee0e612c else 0x990951ba
    else if i < 8 then
      if i == 4 then 0x076dc419 else if i == 5 then 0x706af48f else if i == 6 then 0xe963a535 else 0x9e6495a3
    else if i < 12 then
      if i == 8 then 0x0edb8832 else if i == 9 then 0x79dcb8a4 else if i == 10 then 0xe0d5e91e else 0x97d2d988
    else
      if i == 12 then 0x09b64c2b else if i == 13 then 0x7eb17cbd else if i == 14 then 0xe7b82d07 else 0x90bf1d91
  }

  function Row1(i: bv32): bv32 {
    if i < 20 then
      if i == 16 then 0x1db71064 else if i == 17 then 0x6ab020f2 else if i == 18 then 0xf3b97148 else 0x84be41de
    else if i < 24 then
      if i == 20 then 0x1adad47d else if i == 21 then 0x6ddde4eb else if i == 22 then 0xf4d4b551 else 0x83d385c7
    else if i < 28 then
      if i == 24 then 0x136c9856 else if i == 25 then 0x646ba8c0 else if i == 26 then 0xfd62f97a else 0x8a65c9ec
    else
      if i == 28 then 0x14015c4f else if i == 29 then 0x63066cd9 else if i == 30 then 0xfa0f3d63 else 0x8d080df5
  }

  function Row2(i: bv32): bv32 {
    if i < 36 then
      if i == 32 then 0x3b6e20c8 else if i == 33 then 0x4c69105e else if i == 34 then 0xd56041e4 else 0xa2677172
    else if i < 40 then
      if i == 36 then 0x3c03e4d1 else if i == 37 then 0x4b04d447 else if i == 38 then 0xd20d85fd else 0xa50ab56b
    else if i < 44 then
      if i == 40 then 0x35b5a8fa else if i == 41 then 0x42b2986c else if i == 42 then 0xdbbbc9d6 else 0xacbcf940
    else
      if i == 44 then 0x32d86ce3 else if i == 45 then 0x45df5c75 else if i == 46 then 0xdcd60dcf else 0xabd13d59
  }

  function Row3(i: bv32): bv32 {
    if i < 52 then
      if i == 48 then 0x26d930ac else if i == 49 then 0x51de003a else if i == 50 then 0xc8d75180 else 0xbfd06116
    else if i < 56 then
      if i == 52 then 0x21b4f4b5 else if i == 53 then 0x56b3c423 else if i == 54 then 0xcfba9599 else 0xb8bda50f
    else if i < 60 then
      if i == 56 then 0x2802b89e else if i == 57 then 0x5f058808 else if i == 58 then 0xc60cd9b2 else 0xb10be924
    else
      if i == 60 then 0x2f6f7c87 else if i == 61 then 0x58684c11 else if i == 62 then 0xc1611dab else 0xb6662d3d
  }

  function Row4(i: bv32): bv32 {
    if i < 68 then
      if i == 64 then 0x76dc4190 else if i == 65 then 0x01db7106 else if i == 66 then 0x98d220bc else 0xefd5102a
    else if i < 72 then
      if i == 68 then 0x71b18589 else if i == 69 then 0x06b6b51f else if i == 70 then 0x9fbfe4a5 else 0xe8b8d433
    else if i < 76 then
      if i == 72 then 0x7807c9a2 else if i == 73 then 0x0f00f934 else if i == 74 then 0x9609a88e else 0xe10e9818
    else
      if i == 76 then 0x7f6a0dbb else if i == 77 then 0x086d3d2d else if i == 78 then 0x91646c97 else 0xe6635c01
  }

  function Row5(i: bv32): bv32 {
    if i < 84 then
      if i == 80 then 0x6b6b51f4 else if i == 81 then 0x1c6c6162 else if i == 82 then 0x856530d8 else 0xf262004e
    else if i < 88 then
      if i == 84 then 0x6c0695ed else if i == 85 then 0x1b01a57b else if i == 86 then 0x8208f4c1 else 0xf50fc457
    else if i < 92 then
      if i == 88 then 0x65b0d9c6 else if i == 89 then 0x12b7e950 else if i == 90 then 0x8bbeb8ea else 0xfcb9887c
    else
      if i == 92 then 0x62dd1ddf else if i == 93 then 0x15da2d49 else if i == 94 then 0x8cd37cf3 else 0xfbd44c65
  }

  function Row6(i: bv32): bv32 {
    if i < 100 then
      if i == 96 then 0x4db26158 else if i == 97 then 0x3ab551ce else if i == 98 then 0xa3bc0074 else 0xd4bb30e2
    else if i < 104 then
      if i == 100 then 0x4adfa541 else if i == 101 then 0x3dd895d7 else if i == 102 then 0xa4d1c46d else 0xd3d6f4fb
    else if i < 108 then
      if i == 104 then 0x4369e96a else if i == 105 then 0x346ed9fc else if i == 106 then 0xad678846 else 0xda60b8d0
    else
      if i == 108 then 0x44042d73 else if i == 109 then 0x33031de5 else if i == 110 then 0xaa0a4c5f else 0xdd0d7cc9
  }

  function Row7(i: bv32): bv32 {
    if i < 116 then
      if i == 112 then 0x5005713c else if i == 113 then 0x270241aa else if i == 114 then 0xbe0b1010 else 0xc90c2086
    else if i < 120 then
      if i == 116 then 0x5768b525 else if i == 117 then 0x206f85b3 else if i == 118 then 0xb966d409 else 0xce61e49f
    else if i < 124 then
      if i == 120 then 0x5edef90e else if i == 121 then 0x29d9c998 else if i == 122 then 0xb0d09822 else 0xc7d7a8b4
    else
      if i == 124 then 0x59b33d17 else if i == 125 then 0x2eb40d81 else if i == 126 then 0xb7bd5c3b else 0xc0ba6cad
  }

  function Row8(i: bv32): bv32 {
    if i < 132 then
      if i == 128 then 0xedb88320 else if i == 129 then 0x9abfb3b6 else if i == 130 then 0x03b6e20c else 0x74b1d29a
    else if i < 136 then
      if i == 132 then 0xead54739 else if i == 133 then 0x9dd277af else if i == 134 then 0x04db2615 else 0x73dc1683
    else if i < 140 then
      if i == 136 then 0xe3630b12 else if i == 137 then 0x94643b84 else if i == 138 then 0x0d6d6a3e else 0x7a6a5aa8
    else
      if i == 140 then 0xe40ecf0b else if i == 141 then 0x9309ff9d else if i == 142 then 0x0a00ae27 else 0x7d079eb1
  }

  function Row9(i: bv32): bv32 {
    if i < 148 then
      if i == 144 then 0xf00f9344 else if i == 145 then 0x8708a3d2 else if i == 146 then 0x1e01f268 else 0x6906c2fe
    else if i < 152 then
      if i == 148 then 0xf762575d else if i == 149 then 0x806567cb else if i == 150 then 0x196c3671 else 0x6e6b06e7
    else if i < 156 then
      if i == 152 then 0xfed41b76 else if i == 153 then 0x89d32be0 else if i == 154 then 0x10da7a5a else 0x67dd4acc
    else
      if i == 156 then 0xf9b9df6f else if i == 157 then 0x8ebeeff9 else if i == 158 then 0x17b7be43 else 0x60b08ed5
  }

  function Row10(i: bv32): bv32 {
    if i < 164 then
      if i == 160 then 0xd6d6a3e8 else if i == 161 then 0xa1d1937e else if i == 162 then 0x38d8c2c4 else 0x4fdff252
    else if i < 168 then
      if i == 164 then 0xd1bb67f1 else if i == 165 then 0xa6bc5767 else if i == 166 then 0x3fb506dd else 0x48b2364b
    else if i < 172 then
      if i == 168 then 0xd80d2bda else if i == 169 then 0xaf0a1b4c else if i == 170 then 0x36034af6 else 0x41047a60
    else
      if i == 172 then 0xdf60efc3 else if i == 173 then 0xa867df55 else if i == 174 then 0x316e8eef else 0x4669be79
  }

  function Row11(i: bv32): bv32 {
    if i < 180 then
      if i == 176 then 0xcb61b38c else if i == 177 then 0xbc66831a else if i == 178 then 0x256fd2a0 else 0x5268e236
    else if i < 184 then
      if i == 180 then 0xcc0c7795 else if i == 181 then 0xbb0b4703 else if i == 182 then 0x220216b9 else 0x5505262f
    else if i < 188 then
      if i == 184 then 0xc5ba3bbe else if i == 185 then 0xb2bd0b28 else if i == 186 then 0x2bb45a92 else 0x5cb36a04
    else
      if i == 188 then 0xc2d7ffa7 else if i == 189 then 0xb5d0cf31 else if i == 190 then 0x2cd99e8b else 0x5bdeae1d
  }

  function Row12(i: bv32): bv32 {
    if i < 196 then
      if i == 192 then 0x9b64c2b0 else if i == 193 then 0xec63f226 else if i == 194 then 0x756aa39c else 0x026d930a
    else if i < 200 then
      if i == 196 then 0x9c0906a9 else if i == 197 then 0xeb0e363f else if i == 198 then 0x72076785 else 0x05005713
    else if i < 204 then
      if i == 200 then 0x95bf4a82 else if i == 201 then 0xe2b87a14 else if i == 202 then 0x7bb12bae else 0x0cb61b38
    else
      if i == 204 then 0x92d28e9b else if i == 205 then 0xe5d5be0d else if i == 206 then 0x7cdcefb7 else 0x0bdbdf21
  }

  function Row13(i: bv32): bv32 {
    if i < 212 then
      if i == 208 then 0x86d3d2d4 else if i == 209 then 0xf1d4e242 else if i == 210 then 0x68ddb3f8 else 0x1fda836e
    else if i < 216 then
      if i == 212 then 0x81be16cd else if i == 213 then 0xf6b9265b else if i == 214 then 0x6fb077e1 else 0x18b74777
    else if i < 220 then
      if i == 216 then 0x88085ae6 else if i == 217 then 0xff0f6a70 else if i == 218 then 0x66063bca else 0x11010b5c
    else
      if i == 220 then 0x8f659eff else if i == 221 then 0xf862ae69 else if i == 222 then 0x616bffd3 else 0x166ccf45
  }

  function Row14(i: bv32): bv32 {
    if i < 228 then
      if i == 224 then 0xa00ae278 else if i == 225 then 0xd70dd2ee else if i == 226 then 0x4e048354 else 0x3903b3c2
    else if i < 232 then
      if i == 228 then 0xa7672661 else if i == 229 then 0xd06016f7 else if i == 230 then 0x4969474d else 0x3e6e77db
    else if i < 236 then
      if i == 232 then 0xaed16a4a else if i == 233 then 0xd9d65adc else if i == 234 then 0x40df0b66 else 0x37d83bf0
    else
      if i == 236 then 0xa9bcae53 else if i == 237 then 0xdebb9ec5 else if i == 238 then 0x47b2cf7f else 0x30b5ffe9
  }

  function Row15(i: bv32): bv32 {
    if i < 244 then
      if i == 240 then 0xbdbdf21c else if i == 241 then 0xcabac28a else if i == 242 then 0x53b39330 else 0x24b4a3a6
    else if i < 248 then
      if i == 244 then 0xbad03605 else if i == 245 then 0xcdd70693 else if i == 246 then 0x54de5729 else 0x23d967bf
    else if i < 252 then
      if i == 248 then 0xb3667a2e else if i == 249 then 0xc4614ab8 else if i == 250 then 0x5d681b02 else 0x2a6f2b94
    else
      if i == 252 then 0xb40bbe37 else if i == 253 then 0xc30c8ea1 else if i == 254 then 0x5a05df1b else 0x2d02ef8d
  }

  /** A character converted to the 32-bit word: sign-extended where `char` is signed. */
  function Widen(c: bv8, signedChar: bool): bv32 {
    if signedChar && c >= 0x80 then 0xffffff00 | (c as bv32) else c as bv32
  }

  /** One turn of the loop over the characters. */
  function Lookup(crc: bv32, c: bv32): bv32 {
    Xor(crc >> 8, CrcTable(LowByte(Xor(crc, c))))
  }

  method Hash(val: seq<bv8>, signedChar: bool) returns (hash: bv32)
    ensures hash == Crc(val)
  {
    hide Lookup, Xor, Widen;
    var crc: bv32 := 0xffffffff;
    for k := 0 to |val|
      invariant FeedBytes(crc, val[k..]) == FeedBytes(0xffffffff, val)
    {
      LookupFeedsByte(crc, val[k], signedChar);
      assert val[k..][0] == val[k] && val[k..][1..] == val[k + 1..];
      crc := Lookup(crc, Widen(val[k], signedChar));
    }
    hash := Xor(crc, 0xffffffff);
  }

  // ----- word algebra -----

  lemma XorSwap(a: bv32, b: bv32, c: bv32)
    ensures Xor(Xor(a, b), c) == Xor(Xor(a, c), b) == Xor(b, Xor(a, c)) == Xor(a, Xor(b, c))
  {
  }

  lemma XorCancels(a: bv32, b: bv32, c: bv32)
    ensures Xor(Xor(a, c), Xor(b, c)) == Xor(a, b)
  {
    hide Xor;
    XorSwap(a, c, Xor(b, c));
    XorTwice(b, c);
  }

  lemma XorTwice(b: bv32, c: bv32)
    ensures Xor(c, Xor(b, c)) == b
  {
  }

  lemma HalfXor(a: bv32, b: bv32)
    ensures Half(Xor(a, b)) == Xor(Half(a), Half(b))
    ensures Odd(Xor(a, b)) <==> Odd(a) != Odd(b)
  {
  }

  /** A step is linear over exclusive or. */
  lemma StepLinear(x: bv32, y: bv32)
    ensures Step(Xor(x, y)) == Xor(Step(x), Step(y))
  {
    hide Xor, Half, Odd;
    HalfXor(x, y);
    XorCancels(Half(x), Half(y), POLYNOMIAL);
    XorSwap(Half(x), Half(y), POLYNOMIAL);
  }

  /** `n` steps with no message bits. */
  function Steps(x: bv32, n: nat): bv32
    decreases n
  {
    if n == 0 then x else Steps(Step(x), n - 1)
  }

  lemma {:induction false} StepsLinear(x: bv32, y: bv32, n: nat)
    ensures Steps(Xor(x, y), n) == Xor(Steps(x, n), Steps(y, n))
    decreases n
  {
    hide Step, Xor;
    if n > 0 {
      StepLinear(x, y);
      StepsLinear(Step(x), Step(y), n - 1);
    }
  }

  /** What is left of a byte after `n` bits. */
  function Rest(byte: bv32, n: nat): bv32
    decreases n
  {
    if n == 0 then byte else Rest(Half(byte), n - 1)
  }

  lemma SplitLowBit(byte: bv32) returns (above: bv32)
    ensures byte == Xor(LowBit(byte), above) && Step(above) == Half(byte)
  {
    above := byte & 0xfffffffe;
  }

  /** Message bits may be added to the register up front. */
  lemma {:induction false} BitsUpFront(crc: bv32, byte: bv32, n: nat)
    ensures Steps(Xor(crc, byte), n) == Xor(FeedBits(crc, byte, n), Rest(byte, n))
    decreases n
  {
    hide Step, Xor, Half, LowBit;
    if n > 0 {
      var above := SplitLowBit(byte);
      var crc' := Xor(crc, LowBit(byte));
      XorSwap(crc, LowBit(byte), above);
      StepLinear(crc', above);
      BitsUpFront(Step(crc'), Half(byte), n - 1);
    }
  }

  // ----- eight steps at once -----

  lemma StepsEight(x: bv32)
    ensures Steps(x, BYTE_BITS) == Step(Step(Step(Step(Step(Step(Step(Step(x))))))))
  {
    hide Step;
    var a := Step(Step(Step(Step(x))));
    assert Steps(x, 8) == Steps(Step(Step(x)), 6) == Steps(a, 4) == Steps(Step(Step(a)), 2);
  }

  /** Every entry of the table is eight steps on its index. */
  lemma TableEntry(i: bv32)
    requires i < 256
    ensures CrcTable(i) == Steps(i, BYTE_BITS)
  {
    hide Steps, Step, Row0, Row1, Row2, Row3, Row4, Row5, Row6, Row7, Row8, Row9, Row10, Row11, Row12, Row13, Row14, Row15;
    StepsEight(i);
    if i < 128 {
      if i < 64 {
        if i < 16 { Entries0(i); } else if i < 32 { Entries1(i); } else if i < 48 { Entries2(i); } else { Entries3(i); }
      } else {
        if i < 80 { Entries4(i); } else if i < 96 { Entries5(i); } else if i < 112 { Entries6(i); } else { Entries7(i); }
      }
    } else {
      if i < 192 {
        if i < 144 { Entries8(i); } else if i < 160 { Entries9(i); } else if i < 176 { Entries10(i); } else { Entries11(i); }
      } else {
        if i < 208 { Entries12(i); } else if i < 224 { Entries13(i); } else if i < 240 { Entries14(i); } else { Entries15(i); }
      }
    }
  }

  lemma Entries0(i: bv32)
    requires 0 <= i < 16
    ensures Row0(i) == Step(Step(Step(Step(Step(Step(Step(Step(i))))))))
  {
  }

  lemma Entries1(i: bv32)
    requires 16 <= i < 32
    ensures Row1(i) == Step(Step(Step(Step(Step(Step(Step(Step(i))))))))
  {
  }

  lemma Entries2(i: bv32)
    requires 32 <= i < 48
    ensures Row2(i) == Step(Step(Step(Step(Step(Step(Step(Step(i))))))))
  {
  }

  lemma Entries3(i: bv32)
    requires 48 <= i < 64
    ensures Row3(i) == Step(Step(Step(Step(Step(Step(Step(Step(i))))))))
  {
  }

  lemma Entries4(i: bv32)
    requires 64 <= i < 80
    ensures Row4(i) == Step(Step(Step(Step(Step(Step(Step(Step(i))))))))
  {
  }

  lemma Entries5(i: bv32)
    requires 80 <= i < 96
    ensures Row5(i) == Step(Step(Step(Step(Step(Step(Step(Step(i))))))))
  {
  }

  lemma Entries6(i: bv32)
    requires 96 <= i < 112
    ensures Row6(i) == Step(Step(Step(Step(Step(Step(Step(Step(i))))))))
  {
  }

  lemma Entries7(i: bv32)
    requires 112 <= i < 128
    ensures Row7(i) == Step(Step(Step(Step(Step(Step(Step(Step(i))))))))
  {
  }

  lemma Entries8(i: bv32)
    requires 128 <= i < 144
    ensures Row8(i) == Step(Step(Step(Step(Step(Step(Step(Step(i))))))))
  {
  }

  lemma Entries9(i: bv32)
    requires 144 <= i < 160
    ensures Row9(i) == Step(Step(Step(Step(Step(Step(Step(Step(i))))))))
  {
  }

  lemma Entries10(i: bv32)
    requires 160 <= i < 176
    ensures Row10(i) == Step(Step(Step(Step(Step(Step(Step(Step(i))))))))
  {
  }

  lemma Entries11(i: bv32)
    requires 176 <= i < 192
    ensures Row11(i) == Step(Step(Step(Step(Step(Step(Step(Step(i))))))))
  {
  }

  lemma Entries12(i: bv32)
    requires 192 <= i < 208
    ensures Row12(i) == Step(Step(Step(Step(Step(Step(Step(Step(i))))))))
  {
  }

  lemma Entries13(i: bv32)
    requires 208 <= i < 224
    ensures Row13(i) == Step(Step(Step(Step(Step(Step(Step(Step(i))))))))
  {
  }

  lemma Entries14(i: bv32)
    requires 224 <= i < 240
    ensures Row14(i) == Step(Step(Step(Step(Step(Step(Step(Step(i))))))))
  {
  }

  lemma Entries15(i: bv32)
    requires 240 <= i < 256
    ensures Row15(i) == Step(Step(Step(Step(Step(Step(Step(Step(i))))))))
  {
  }

  /** Eight zero bits at the bottom are only shifted out. */
  lemma ZerosShiftOut(x: bv32)
    requires LowByte(x) == 0
    ensures Steps(x, BYTE_BITS) == x >> 8
  {
    hide Steps;
    StepsEight(x);
  }

  lemma ByteShiftsOut(w: bv32)
    requires w < 256
    ensures Rest(w, BYTE_BITS) == 0
  {
    var a := Half(Half(Half(Half(w))));
    assert Rest(w, 8) == Rest(Half(Half(w)), 6) == Rest(a, 4) == Rest(Half(Half(a)), 2);
    assert Half(Half(Half(Half(a)))) == w >> 8;
  }

  function HighBytes(x: bv32): bv32 { x & 0xffffff00 }

  lemma HighShifts(x: bv32)
    ensures HighBytes(x) >> 8 == x >> 8
  {
  }

  lemma HighHasNoLowByte(x: bv32)
    ensures LowByte(HighBytes(x)) == 0 && LowByte(x) < 256
  {
  }

  lemma HighAndLow(x: bv32)
    ensures x == Xor(HighBytes(x), LowByte(x))
  {
  }

  /** Core lemma: eight steps on any word are one table step. */
  lemma EightStepsAreOneLookup(x: bv32)
    ensures Steps(x, BYTE_BITS) == Xor(x >> 8, CrcTable(LowByte(x)))
  {
    hide Steps, Xor, LowByte, HighBytes, CrcTable;
    HighAndLow(x);
    HighHasNoLowByte(x);
    HighShifts(x);
    StepsLinear(HighBytes(x), LowByte(x), BYTE_BITS);
    ZerosShiftOut(HighBytes(x));
    TableEntry(LowByte(x));
  }

  lemma ByteDetails(crc: bv32, c: bv8, signedChar: bool)
    ensures var w := c as bv32;
      w < 256 && Xor(crc, w) >> 8 == crc >> 8
      && LowByte(Xor(crc, Widen(c, signedChar))) == LowByte(Xor(crc, w))
      && forall fed :: Xor(fed, 0) == fed
  {
  }

  /** A turn of the loop feeds the eight bits of a character, signed or not. */
  lemma LookupFeedsByte(crc: bv32, c: bv8, signedChar: bool)
    ensures Lookup(crc, Widen(c, signedChar)) == FeedBits(crc, c as bv32, BYTE_BITS)
  {
    hide Steps, FeedBits, Rest, Xor, LowByte, CrcTable, Widen;
    var w := c as bv32;
    ByteDetails(crc, c, signedChar);
    BitsUpFront(crc, w, BYTE_BITS);
    ByteShiftsOut(w);
    EightStepsAreOneLookup(Xor(crc, w));
  }

  // ----- what the hash is -----

  lemma Feeds(w: seq<bv8>, i: nat, crc: bv32, next: bv32)
    requires i < |w| && Lookup(crc, w[i] as bv32) == next
    ensures FeedBytes(crc, w[i..]) == FeedBytes(next, w[i + 1..])
  {
    hide Lookup, FeedBits;
    assert w[i..][0] == w[i] && w[i..][1..] == w[i + 1..];
    LookupFeedsByte(crc, w[i], false);
  }

  lemma FedNothing(w: seq<bv8>, crc: bv32)
    ensures FeedBytes(crc, w[|w|..]) == crc
  {
  }

  lemma CrcOfNothing()
    ensures Crc([]) == 0
  {
  }

  /** The digits 1 to 9. */
  const DIGITS: seq<bv8> := [0x31, 0x32, 0x33, 0x34, 0x35, 0x36, 0x37, 0x38, 0x39]

  lemma FirstDigits()
    ensures FeedBytes(0xffffffff, DIGITS) == FeedBytes(0x340ac5e3, DIGITS[5..])
  {
    hide FeedBytes;
    assert DIGITS[0..] == DIGITS;
    Feeds(DIGITS, 0, 0xffffffff, 0x7c231048);
    Feeds(DIGITS, 1, 0x7c231048, 0xb0acbb32);
    Feeds(DIGITS, 2, 0xb0acbb32, 0x77b79c2d);
    Feeds(DIGITS, 3, 0x77b79c2d, 0x641c1f5c);
    Feeds(DIGITS, 4, 0x641c1f5c, 0x340ac5e3);
  }

  /** Their CRC is the check value by which CRC-32 is told from other codes. */
  lemma CheckValue()
    ensures Crc(DIGITS) == 0xcbf43926
  {
    hide FeedBytes;
    FirstDigits();
    Feeds(DIGITS, 5, 0x340ac5e3, 0xf68d2c9e);
    Feeds(DIGITS, 6, 0xf68d2c9e, 0xaffc9660);
    Feeds(DIGITS, 7, 0xaffc9660, 0x651f2550);
    Feeds(DIGITS, 8, 0x651f2550, 0x340bc6d9);
    FedNothing(DIGITS, 0x340bc6d9);
  }

  /** The low `n` bytes of a word from the low end, as the code is sent after its message. */
  function LittleEndian(c: bv32, n: nat): seq<bv8>
    decreases n
  {
    if n == 0 then [] else [AsByte(LowByte(c))] + LittleEndian(c >> 8, n - 1)
  }

  /** The word has no more than `n` bytes. */
  predicate Fits(c: bv32, n: nat)
    decreases n
  {
    if n == 0 then c == 0 else Fits(c >> 8, n - 1)
  }

  lemma FourBytesFit(c: bv32)
    ensures Fits(c, 4)
  {
    assert Fits(c, 4) == Fits((c >> 8) >> 8, 2) == Fits((((c >> 8) >> 8) >> 8) >> 8, 0);
  }

  lemma {:induction false} FeedJoins(crc: bv32, m: seq<bv8>, n: seq<bv8>)
    ensures FeedBytes(crc, m + n) == FeedBytes(FeedBytes(crc, m), n)
    decreases |m|
  {
    hide FeedBits;
    if m == [] {
      assert m + n == n;
    } else {
      assert (m + n)[1..] == m[1..] + n;
      FeedJoins(FeedBits(crc, m[0] as bv32, BYTE_BITS), m[1..], n);
    }
  }

  /** Feeding a byte is eight steps with the byte added up front. */
  lemma FeedIsSteps(crc: bv32, w: bv32)
    requires w < 256
    ensures FeedBits(crc, w, BYTE_BITS) == Steps(Xor(crc, w), BYTE_BITS)
  {
    BitsUpFront(crc, w, BYTE_BITS);
    ByteShiftsOut(w);
    XorZero(FeedBits(crc, w, BYTE_BITS));
  }

  lemma XorZero(x: bv32)
    ensures Xor(x, 0) == x
  {
  }

  /** Higher bytes may be added before the steps. */
  lemma StepsAhead(x: bv32, y: bv32)
    requires LowByte(y) == 0
    ensures Steps(Xor(x, y), BYTE_BITS) == Xor(Steps(x, BYTE_BITS), y >> 8)
  {
    hide Steps, Xor, LowByte;
    StepsLinear(x, y, BYTE_BITS);
    ZerosShiftOut(y);
  }

  /** Eight steps for each of `n` bytes. */
  function StepBytes(x: bv32, n: nat): bv32
    decreases n
  {
    if n == 0 then x else StepBytes(Steps(x, BYTE_BITS), n - 1)
  }

  lemma ByteBack(a: bv32)
    requires a < 256
    ensures AsByte(a) as bv32 == a
  {
  }

  /** Feeding the low byte of a word leaves the rest of it to be fed. */
  lemma FeedLowByte(crc: bv32, c: bv32)
    ensures Xor(FeedBits(crc, LowByte(c), BYTE_BITS), c >> 8) == Steps(Xor(crc, c), BYTE_BITS)
  {
    hide Steps, FeedBits, Xor, LowByte, HighBytes;
    var low, high := LowByte(c), HighBytes(c);
    FeedIsSteps(crc, low);
    HighAndLow(c);
    HighHasNoLowByte(c);
    HighShifts(c);
    StepsAhead(Xor(crc, low), high);
    XorSwap(crc, low, high);
    XorSwap(crc, high, low);
  }

  lemma FirstByte(c: bv32, n: nat)
    requires n > 0
    ensures LittleEndian(c, n) != [] && LittleEndian(c, n)[0] as bv32 == LowByte(c)
    ensures LittleEndian(c, n)[1..] == LittleEndian(c >> 8, n - 1)
  {
    hide LowByte, AsByte;
    ByteBack(LowByte(c));
  }

  /** The bytes of a word, fed one by one, are the word added up front. */
  lemma {:induction false} FeedWord(crc: bv32, c: bv32, n: nat)
    requires Fits(c, n)
    ensures FeedBytes(crc, LittleEndian(c, n)) == StepBytes(Xor(crc, c), n)
    decreases n
  {
    hide Steps, FeedBits, Xor, LowByte;
    if n == 0 {
      XorZero(crc);
    } else {
      FirstByte(c, n);
      FeedLowByte(crc, c);
      hide LittleEndian;
      FeedWord(FeedBits(crc, LowByte(c), BYTE_BITS), c >> 8, n - 1);
    }
  }

  lemma RegisterOfOnes()
    ensures StepBytes(0xffffffff, 4) == 0xdebb20e3
  {
    EightStepsAreOneLookup(0xffffffff);
    EightStepsAreOneLookup(0x2dfd1072);
    EightStepsAreOneLookup(0xbe26ed00);
    EightStepsAreOneLookup(0x00be26ed);
    hide Steps;
    assert StepBytes(0xffffffff, 4) == StepBytes(0xbe26ed00, 2);
  }

  /** The law receivers check: a message followed by its code leaves the same register,
      whatever the message. */
  lemma CodeLeavesResidue(m: seq<bv8>)
    ensures FeedBytes(0xffffffff, m + LittleEndian(Crc(m), 4)) == 0xdebb20e3
  {
    var register := FeedBytes(0xffffffff, m);
    FeedJoins(0xffffffff, m, LittleEndian(Crc(m), 4));
    ComplementCancels(register);
    FourBytesFit(Crc(m));
    hide FeedBytes, Xor, LittleEndian, StepBytes;
    FeedWord(register, Crc(m), 4);
    RegisterOfOnes();
  }

  lemma ComplementCancels(x: bv32)
    ensures Xor(x, Xor(x, 0xffffffff)) == 0xffffffff
  {
  }
}
