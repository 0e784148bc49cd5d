/**
 The two constant tables of the static Huffman code: the encoding table indexed by byte value
 and the decoding tree indexed by node number. They are written down separately; that they
 describe the same code is proved in HuffmanAgreement.dfy.

 A table is a function by cases, in blocks of 32 rows; an index past the end reads the last row.
 */
module HuffmanTables {
  /** Code word of one byte: the `len` most significant bits of the 16-bit word `word`. */
  datatype Code = Code(word: nat, len: nat)

  /** Tree node: a leaf when `node2` is zero (then `node1` is the byte), else the two successors. */
  datatype Node = Node(node1: nat, node2: nat)

  const NODES: nat := 513

  function EncodeRow0(c: nat): Code {
    match c
    case 0 => Code(0xab2c, 15) case 1 => Code(0xaa84, 15) case 2 => Code(0x9fc4, 15) case 3 => Code(0xab3c, 15)
    case 4 => Code(0xab1c, 15) case 5 => Code(0xaafc, 15) case 6 => Code(0xaaec, 15) case 7 => Code(0xaad4, 15)
    case 8 => Code(0xaab4, 15) case 9 => Code(0xf340, 10) case 10 => Code(0xaaa4, 15) case 11 => Code(0x7d64, 15)
    case 12 => Code(0xaadc, 15) case 13 => Code(0xf400, 7) case 14 => Code(0xaa94, 15) case 15 => Code(0x9ff4, 15)
    case 16 => Code(0x9fd4, 15) case 17 => Code(0x7d74, 15) case 18 => Code(0xab44, 15) case 19 => Code(0xab34, 15)
    case 20 => Code(0xab24, 15) case 21 => Code(0xab14, 15) case 22 => Code(0xab04, 15) case 23 => Code(0xaaf4, 15)
    case 24 => Code(0xaae4, 15) case 25 => Code(0xab60, 14) case 26 => Code(0xab0c, 15) case 27 => Code(0xaacc, 15)
    case 28 => Code(0xaabc, 15) case 29 => Code(0xaaac, 15) case 30 => Code(0xaa9c, 15) case _ => Code(0xaa8c, 15)
  }

  function EncodeRow1(c: nat): Code {
    match c
    case 32 => Code(0xc000, 3) case 33 => Code(0x3a80, 9) case 34 => Code(0xabc0, 10) case 35 => Code(0x0060, 11)
    case 36 => Code(0x7d40, 12) case 37 => Code(0xab5c, 14) case 38 => Code(0x0000, 12) case 39 => Code(0xab58, 14)
    case 40 => Code(0x7c00, 9) case 41 => Code(0x3c80, 9) case 42 => Code(0x7d00, 11) case 43 => Code(0x0010, 12)
    case 44 => Code(0x1200, 7) case 45 => Code(0x7a00, 7) case 46 => Code(0xb800, 6) case 47 => Code(0x3200, 7)
    case 48 => Code(0x2200, 7) case 49 => Code(0xf600, 8) case 50 => Code(0x3d00, 8) case 51 => Code(0x9e00, 9)
    case 52 => Code(0xbd80, 9) case 53 => Code(0x7c80, 9) case 54 => Code(0x0080, 9) case 55 => Code(0xaa00, 9)
    case 56 => Code(0xbd00, 9) case 57 => Code(0x9f00, 9) case 58 => Code(0x0300, 8) case 59 => Code(0xab78, 13)
    case 60 => Code(0xab68, 13) case 61 => Code(0x3c00, 9) case 62 => Code(0x3000, 9) case _ => Code(0x0020, 11)
  }

  function EncodeRow2(c: nat): Code {
    match c
    case 64 => Code(0x7d50, 12) case 65 => Code(0x3800, 7) case 66 => Code(0x7800, 7) case 67 => Code(0x9c00, 7)
    case 68 => Code(0xfe00, 7) case 69 => Code(0x2400, 6) case 70 => Code(0xbc00, 8) case 71 => Code(0x0200, 8)
    case 72 => Code(0x0100, 8) case 73 => Code(0xf100, 8) case 74 => Code(0x0040, 11) case 75 => Code(0x3100, 8)
    case 76 => Code(0xf200, 8) case 77 => Code(0x3400, 7) case 78 => Code(0x1c00, 7) case 79 => Code(0x1e00, 7)
    case 80 => Code(0xbe00, 7) case 81 => Code(0xaba0, 11) case 82 => Code(0x3e00, 7) case 83 => Code(0x1400, 6)
    case 84 => Code(0x3600, 7) case 85 => Code(0xf380, 9) case 86 => Code(0xf080, 9) case 87 => Code(0x2000, 8)
    case 88 => Code(0xfc00, 8) case 89 => Code(0x9f80, 10) case 90 => Code(0x9e80, 9) case 91 => Code(0xab90, 12)
    case 92 => Code(0x3b80, 9) case 93 => Code(0xab80, 12) case 94 => Code(0xab54, 14) case _ => Code(0x3a50, 13)
  }

  function EncodeRow3(c: nat): Code {
    match c
    case 96 => Code(0xab50, 14) case 97 => Code(0xa000, 5) case 98 => Code(0x1800, 6) case 99 => Code(0x9800, 6)
    case 100 => Code(0x7000, 5) case 101 => Code(0x4000, 3) case 102 => Code(0x0400, 6) case 103 => Code(0xac00, 6)
    case 104 => Code(0xf800, 6) case 105 => Code(0x6000, 4) case 106 => Code(0x3a00, 10) case 107 => Code(0xfd00, 8)
    case 108 => Code(0x2800, 5) case 109 => Code(0xb000, 6) case 110 => Code(0x8000, 4) case 111 => Code(0xb400, 6)
    case 112 => Code(0x1000, 7) case 113 => Code(0x7d20, 12) case 114 => Code(0xe000, 5) case 115 => Code(0x9000, 5)
    case 116 => Code(0xe800, 5) case 117 => Code(0x0800, 5) case 118 => Code(0xf700, 8) case 119 => Code(0xa800, 7)
    case 120 => Code(0x7d80, 9) case 121 => Code(0xf300, 10) case 122 => Code(0x7e00, 7) case 123 => Code(0xab48, 14)
    case 124 => Code(0x3a48, 13) case 125 => Code(0xab4c, 14) case 126 => Code(0x3a60, 12) case _ => Code(0x9ffc, 15)
  }

  function EncodeRow4(c: nat): Code {
    match c
    case 128 => Code(0x9fec, 15) case 129 => Code(0x2100, 8) case 130 => Code(0x9fdc, 15) case 131 => Code(0x9fcc, 15)
    case 132 => Code(0xf000, 9) case 133 => Code(0x7d7c, 15) case 134 => Code(0x7d6c, 15) case 135 => Code(0x3a40, 14)
    case 136 => Code(0xab40, 15) case 137 => Code(0xab38, 15) case 138 => Code(0xab30, 15) case 139 => Code(0xab28, 15)
    case 140 => Code(0xab20, 15) case 141 => Code(0xab18, 15) case 142 => Code(0xab70, 13) case 143 => Code(0xab10, 15)
    case 144 => Code(0xab08, 15) case 145 => Code(0xab00, 15) case 146 => Code(0xaaf8, 15) case 147 => Code(0xaaf0, 15)
    case 148 => Code(0x3b00, 9) case 149 => Code(0xaae8, 15) case 150 => Code(0xaae0, 15) case 151 => Code(0xaad8, 15)
    case 152 => Code(0xaad0, 15) case 153 => Code(0xab64, 14) case 154 => Code(0x7d30, 12) case 155 => Code(0xaac8, 15)
    case 156 => Code(0xaac0, 15) case 157 => Code(0xaab8, 15) case 158 => Code(0xaab0, 15) case _ => Code(0xaaa8, 15)
  }

  function EncodeRow5(c: nat): Code {
    match c
    case 160 => Code(0xaaa0, 15) case 161 => Code(0xaa98, 15) case 162 => Code(0xaa90, 15) case 163 => Code(0xaa88, 15)
    case 164 => Code(0xaa80, 15) case 165 => Code(0x9ff8, 15) case 166 => Code(0x9ff0, 15) case 167 => Code(0x9fe8, 15)
    case 168 => Code(0x9fe0, 15) case 169 => Code(0x9fd8, 15) case 170 => Code(0x9fd0, 15) case 171 => Code(0x9fc8, 15)
    case 172 => Code(0x9fc0, 15) case 173 => Code(0x7d78, 15) case 174 => Code(0x7d70, 15) case 175 => Code(0x3a58, 13)
    case 176 => Code(0x7d68, 15) case 177 => Code(0x7d60, 15) case 178 => Code(0xab46, 15) case 179 => Code(0xab42, 15)
    case 180 => Code(0xab3e, 15) case 181 => Code(0xab3a, 15) case 182 => Code(0xab36, 15) case 183 => Code(0xab32, 15)
    case 184 => Code(0xab2e, 15) case 185 => Code(0xab2a, 15) case 186 => Code(0xab26, 15) case 187 => Code(0xab22, 15)
    case 188 => Code(0xab1e, 15) case 189 => Code(0xab1a, 15) case 190 => Code(0xab16, 15) case _ => Code(0xab12, 15)
  }

  function EncodeRow6(c: nat): Code {
    match c
    case 192 => Code(0xab0e, 15) case 193 => Code(0xab0a, 15) case 194 => Code(0xab06, 15) case 195 => Code(0xab02, 15)
    case 196 => Code(0xaafe, 15) case 197 => Code(0xaafa, 15) case 198 => Code(0xaaf6, 15) case 199 => Code(0xaaf2, 15)
    case 200 => Code(0xaaee, 15) case 201 => Code(0xaaea, 15) case 202 => Code(0xaae6, 15) case 203 => Code(0xaae2, 15)
    case 204 => Code(0xaade, 15) case 205 => Code(0xaada, 15) case 206 => Code(0xaad6, 15) case 207 => Code(0xaad2, 15)
    case 208 => Code(0xaace, 15) case 209 => Code(0xaaca, 15) case 210 => Code(0xaac6, 15) case 211 => Code(0xaac2, 15)
    case 212 => Code(0xaabe, 15) case 213 => Code(0xaaba, 15) case 214 => Code(0xaab6, 15) case 215 => Code(0xaab2, 15)
    case 216 => Code(0xaaae, 15) case 217 => Code(0xaaaa, 15) case 218 => Code(0xaaa6, 15) case 219 => Code(0xaaa2, 15)
    case 220 => Code(0xaa9e, 15) case 221 => Code(0x3a70, 12) case 222 => Code(0xaa9a, 15) case _ => Code(0xaa96, 15)
  }

  function EncodeRow7(c: nat): Code {
    match c
    case 224 => Code(0xaa92, 15) case 225 => Code(0x3080, 9) case 226 => Code(0xaa8e, 15) case 227 => Code(0xaa8a, 15)
    case 228 => Code(0xaa86, 15) case 229 => Code(0xaa82, 15) case 230 => Code(0x9ffe, 15) case 231 => Code(0x9ffa, 15)
    case 232 => Code(0x9ff6, 15) case 233 => Code(0x9ff2, 15) case 234 => Code(0x9fee, 15) case 235 => Code(0x9fea, 15)
    case 236 => Code(0x9fe6, 15) case 237 => Code(0x9fe2, 15) case 238 => Code(0x9fde, 15) case 239 => Code(0x9fda, 15)
    case 240 => Code(0x9fd6, 15) case 241 => Code(0x9fd2, 15) case 242 => Code(0x9fce, 15) case 243 => Code(0x9fca, 15)
    case 244 => Code(0x9fc6, 15) case 245 => Code(0x9fc2, 15) case 246 => Code(0x7d7e, 15) case 247 => Code(0x7d7a, 15)
    case 248 => Code(0x7d76, 15) case 249 => Code(0x7d72, 15) case 250 => Code(0x7d6e, 15) case 251 => Code(0x7d6a, 15)
    case 252 => Code(0x7d66, 15) case 253 => Code(0x7d62, 15) case 254 => Code(0x3a46, 15) case _ => Code(0x3a44, 15)
  }

  /** The encoding table. */
  function EncodeRow(c: nat): Code {
    if c < 32 then EncodeRow0(c)
    else if c < 64 then EncodeRow1(c)
    else if c < 96 then EncodeRow2(c)
    else if c < 128 then EncodeRow3(c)
    else if c < 160 then EncodeRow4(c)
    else if c < 192 then EncodeRow5(c)
    else if c < 224 then EncodeRow6(c)
    else EncodeRow7(c)
  }

  function DecodeRow0(i: nat): Node {
    match i
    case 0 => Node(79, 1) case 1 => Node(2, 66) case 2 => Node(24, 3) case 3 => Node(4, 208)
    case 4 => Node(292, 5) case 5 => Node(6, 298) case 6 => Node(317, 7) case 7 => Node(16, 8)
    case 8 => Node(9, 173) case 9 => Node(10, 116) case 10 => Node(41, 11) case 11 => Node(12, 37)
    case 12 => Node(125, 13) case 13 => Node(357, 14) case 14 => Node(15, 438) case 15 => Node(0, 0)
    case 16 => Node(229, 17) case 17 => Node(18, 46) case 18 => Node(19, 61) case 19 => Node(20, 99)
    case 20 => Node(21, 161) case 21 => Node(404, 22) case 22 => Node(23, 483) case 23 => Node(1, 0)
    case 24 => Node(306, 25) case 25 => Node(313, 26) case 26 => Node(294, 27) case 27 => Node(245, 28)
    case 28 => Node(221, 29) case 29 => Node(231, 30) case 30 => Node(277, 31) case _ => Node(32, 103)
  }

  function DecodeRow1(i: nat): Node {
    match i
    case 32 => Node(33, 108) case 33 => Node(34, 339) case 34 => Node(421, 35) case 35 => Node(36, 500)
    case 36 => Node(2, 0) case 37 => Node(122, 38) case 38 => Node(353, 39) case 39 => Node(40, 434)
    case 40 => Node(3, 0) case 41 => Node(131, 42) case 42 => Node(128, 43) case 43 => Node(361, 44)
    case 44 => Node(45, 442) case 45 => Node(4, 0) case 46 => Node(56, 47) case 47 => Node(52, 48)
    case 48 => Node(135, 49) case 49 => Node(370, 50) case 50 => Node(51, 450) case 51 => Node(5, 0)
    case 52 => Node(138, 53) case 53 => Node(375, 54) case 54 => Node(55, 454) case 55 => Node(6, 0)
    case 56 => Node(148, 57) case 57 => Node(58, 94) case 58 => Node(381, 59) case 59 => Node(60, 460)
    case 60 => Node(7, 0) case 61 => Node(75, 62) case 62 => Node(63, 152) case _ => Node(392, 64)
  }

  function DecodeRow2(i: nat): Node {
    match i
    case 64 => Node(65, 469) case 65 => Node(8, 0) case 66 => Node(164, 67) case 67 => Node(311, 68)
    case 68 => Node(69, 246) case 69 => Node(70, 97) case 70 => Node(253, 71) case 71 => Node(257, 72)
    case 72 => Node(73, 270) case 73 => Node(319, 74) case 74 => Node(9, 0) case 75 => Node(76, 155)
    case 76 => Node(396, 77) case 77 => Node(78, 473) case 78 => Node(10, 0) case 79 => Node(165, 80)
    case 80 => Node(296, 81) case 81 => Node(300, 82) case 82 => Node(295, 83) case 83 => Node(206, 84)
    case 84 => Node(85, 320) case 85 => Node(193, 86) case 86 => Node(87, 318) case 87 => Node(199, 88)
    case 88 => Node(184, 89) case 89 => Node(90, 112) case 90 => Node(91, 346) case 91 => Node(430, 92)
    case 92 => Node(93, 508) case 93 => Node(11, 0) case 94 => Node(379, 95) case _ => Node(96, 458)
  }

  function DecodeRow3(i: nat): Node {
    match i
    case 96 => Node(12, 0) case 97 => Node(98, 218) case 98 => Node(13, 0) case 99 => Node(100, 158)
    case 100 => Node(400, 101) case 101 => Node(102, 478) case 102 => Node(14, 0) case 103 => Node(331, 104)
    case 104 => Node(105, 328) case 105 => Node(408, 106) case 106 => Node(107, 487) case 107 => Node(15, 0)
    case 108 => Node(109, 336) case 109 => Node(417, 110) case 110 => Node(111, 496) case 111 => Node(16, 0)
    case 112 => Node(113, 343) case 113 => Node(425, 114) case 114 => Node(115, 504) case 115 => Node(17, 0)
    case 116 => Node(117, 141) case 117 => Node(118, 186) case 118 => Node(119, 321) case 119 => Node(351, 120)
    case 120 => Node(121, 432) case 121 => Node(18, 0) case 122 => Node(355, 123) case 123 => Node(124, 436)
    case 124 => Node(19, 0) case 125 => Node(359, 126) case 126 => Node(127, 440) case _ => Node(20, 0)
  }

  function DecodeRow4(i: nat): Node {
    match i
    case 128 => Node(364, 129) case 129 => Node(130, 444) case 130 => Node(21, 0) case 131 => Node(132, 145)
    case 132 => Node(368, 133) case 133 => Node(134, 448) case 134 => Node(22, 0) case 135 => Node(372, 136)
    case 136 => Node(137, 452) case 137 => Node(23, 0) case 138 => Node(377, 139) case 139 => Node(140, 456)
    case 140 => Node(24, 0) case 141 => Node(142, 234) case 142 => Node(143, 236) case 143 => Node(144, 383)
    case 144 => Node(25, 0) case 145 => Node(366, 146) case 146 => Node(147, 446) case 147 => Node(26, 0)
    case 148 => Node(387, 149) case 149 => Node(385, 150) case 150 => Node(151, 462) case 151 => Node(27, 0)
    case 152 => Node(390, 153) case 153 => Node(154, 467) case 154 => Node(28, 0) case 155 => Node(394, 156)
    case 156 => Node(157, 471) case 157 => Node(29, 0) case 158 => Node(398, 159) case _ => Node(160, 475)
  }

  function DecodeRow5(i: nat): Node {
    match i
    case 160 => Node(30, 0) case 161 => Node(402, 162) case 162 => Node(163, 481) case 163 => Node(31, 0)
    case 164 => Node(32, 0) case 165 => Node(175, 166) case 166 => Node(214, 167) case 167 => Node(211, 168)
    case 168 => Node(169, 195) case 169 => Node(243, 170) case 170 => Node(171, 281) case 171 => Node(286, 172)
    case 172 => Node(33, 0) case 173 => Node(265, 174) case 174 => Node(34, 0) case 175 => Node(176, 202)
    case 176 => Node(177, 315) case 177 => Node(178, 297) case 178 => Node(179, 232) case 179 => Node(180, 252)
    case 180 => Node(181, 228) case 181 => Node(189, 182) case 182 => Node(255, 183) case 183 => Node(35, 0)
    case 184 => Node(185, 242) case 185 => Node(36, 0) case 186 => Node(284, 187) case 187 => Node(192, 188)
    case 188 => Node(37, 0) case 189 => Node(190, 241) case 190 => Node(191, 201) case _ => Node(38, 0)
  }

  function DecodeRow6(i: nat): Node {
    match i
    case 192 => Node(39, 0) case 193 => Node(194, 227) case 194 => Node(40, 0) case 195 => Node(196, 267)
    case 196 => Node(197, 220) case 197 => Node(237, 198) case 198 => Node(41, 0) case 199 => Node(200, 309)
    case 200 => Node(42, 0) case 201 => Node(43, 0) case 202 => Node(203, 260) case 203 => Node(204, 268)
    case 204 => Node(308, 205) case 205 => Node(44, 0) case 206 => Node(244, 207) case 207 => Node(45, 0)
    case 208 => Node(304, 209) case 209 => Node(210, 223) case 210 => Node(46, 0) case 211 => Node(212, 258)
    case 212 => Node(238, 213) case 213 => Node(47, 0) case 214 => Node(215, 303) case 215 => Node(216, 249)
    case 216 => Node(273, 217) case 217 => Node(48, 0) case 218 => Node(219, 316) case 219 => Node(49, 0)
    case 220 => Node(50, 0) case 221 => Node(222, 278) case 222 => Node(51, 0) case _ => Node(224, 264)
  }

  function DecodeRow7(i: nat): Node {
    match i
    case 224 => Node(250, 225) case 225 => Node(230, 226) case 226 => Node(52, 0) case 227 => Node(53, 0)
    case 228 => Node(54, 0) case 229 => Node(55, 0) case 230 => Node(56, 0) case 231 => Node(57, 0)
    case 232 => Node(251, 233) case 233 => Node(58, 0) case 234 => Node(363, 235) case 235 => Node(59, 0)
    case 236 => Node(60, 0) case 237 => Node(61, 0) case 238 => Node(239, 256) case 239 => Node(240, 480)
    case 240 => Node(62, 0) case 241 => Node(63, 0) case 242 => Node(64, 0) case 243 => Node(65, 0)
    case 244 => Node(66, 0) case 245 => Node(67, 0) case 246 => Node(299, 247) case 247 => Node(275, 248)
    case 248 => Node(68, 0) case 249 => Node(69, 0) case 250 => Node(70, 0) case 251 => Node(71, 0)
    case 252 => Node(72, 0) case 253 => Node(271, 254) case 254 => Node(73, 0) case _ => Node(74, 0)
  }

  function DecodeRow8(i: nat): Node {
    match i
    case 256 => Node(75, 0) case 257 => Node(76, 0) case 258 => Node(259, 269) case 259 => Node(77, 0)
    case 260 => Node(293, 261) case 261 => Node(262, 263) case 262 => Node(78, 0) case 263 => Node(79, 0)
    case 264 => Node(80, 0) case 265 => Node(279, 266) case 266 => Node(81, 0) case 267 => Node(82, 0)
    case 268 => Node(83, 0) case 269 => Node(84, 0) case 270 => Node(85, 0) case 271 => Node(342, 272)
    case 272 => Node(86, 0) case 273 => Node(274, 335) case 274 => Node(87, 0) case 275 => Node(276, 302)
    case 276 => Node(88, 0) case 277 => Node(89, 0) case 278 => Node(90, 0) case 279 => Node(283, 280)
    case 280 => Node(91, 0) case 281 => Node(374, 282) case 282 => Node(92, 0) case 283 => Node(93, 0)
    case 284 => Node(291, 285) case 285 => Node(94, 0) case 286 => Node(301, 287) case _ => Node(288, 326)
  }

  function DecodeRow9(i: nat): Node {
    match i
    case 288 => Node(323, 289) case 289 => Node(290, 427) case 290 => Node(95, 0) case 291 => Node(96, 0)
    case 292 => Node(97, 0) case 293 => Node(98, 0) case 294 => Node(99, 0) case 295 => Node(100, 0)
    case 296 => Node(101, 0) case 297 => Node(102, 0) case 298 => Node(103, 0) case 299 => Node(104, 0)
    case 300 => Node(105, 0) case 301 => Node(106, 0) case 302 => Node(107, 0) case 303 => Node(108, 0)
    case 304 => Node(305, 307) case 305 => Node(109, 0) case 306 => Node(110, 0) case 307 => Node(111, 0)
    case 308 => Node(112, 0) case 309 => Node(310, 384) case 310 => Node(113, 0) case 311 => Node(312, 314)
    case 312 => Node(114, 0) case 313 => Node(115, 0) case 314 => Node(116, 0) case 315 => Node(117, 0)
    case 316 => Node(118, 0) case 317 => Node(119, 0) case 318 => Node(120, 0) case _ => Node(121, 0)
  }

  function DecodeRow10(i: nat): Node {
    match i
    case 320 => Node(122, 0) case 321 => Node(322, 325) case 322 => Node(123, 0) case 323 => Node(349, 324)
    case 324 => Node(124, 0) case 325 => Node(125, 0) case 326 => Node(327, 476) case 327 => Node(126, 0)
    case 328 => Node(406, 329) case 329 => Node(330, 485) case 330 => Node(127, 0) case 331 => Node(412, 332)
    case 332 => Node(410, 333) case 333 => Node(334, 489) case 334 => Node(128, 0) case 335 => Node(129, 0)
    case 336 => Node(415, 337) case 337 => Node(338, 494) case 338 => Node(130, 0) case 339 => Node(419, 340)
    case 340 => Node(341, 498) case 341 => Node(131, 0) case 342 => Node(132, 0) case 343 => Node(423, 344)
    case 344 => Node(345, 502) case 345 => Node(133, 0) case 346 => Node(428, 347) case 347 => Node(348, 506)
    case 348 => Node(134, 0) case 349 => Node(350, 510) case 350 => Node(135, 0) case _ => Node(352, 433)
  }

  function DecodeRow11(i: nat): Node {
    match i
    case 352 => Node(136, 0) case 353 => Node(354, 435) case 354 => Node(137, 0) case 355 => Node(356, 437)
    case 356 => Node(138, 0) case 357 => Node(358, 439) case 358 => Node(139, 0) case 359 => Node(360, 441)
    case 360 => Node(140, 0) case 361 => Node(362, 443) case 362 => Node(141, 0) case 363 => Node(142, 0)
    case 364 => Node(365, 445) case 365 => Node(143, 0) case 366 => Node(367, 447) case 367 => Node(144, 0)
    case 368 => Node(369, 449) case 369 => Node(145, 0) case 370 => Node(371, 451) case 371 => Node(146, 0)
    case 372 => Node(373, 453) case 373 => Node(147, 0) case 374 => Node(148, 0) case 375 => Node(376, 455)
    case 376 => Node(149, 0) case 377 => Node(378, 457) case 378 => Node(150, 0) case 379 => Node(380, 459)
    case 380 => Node(151, 0) case 381 => Node(382, 461) case 382 => Node(152, 0) case _ => Node(153, 0)
  }

  function DecodeRow12(i: nat): Node {
    match i
    case 384 => Node(154, 0) case 385 => Node(386, 463) case 386 => Node(155, 0) case 387 => Node(388, 464)
    case 388 => Node(389, 466) case 389 => Node(156, 0) case 390 => Node(391, 468) case 391 => Node(157, 0)
    case 392 => Node(393, 470) case 393 => Node(158, 0) case 394 => Node(395, 472) case 395 => Node(159, 0)
    case 396 => Node(397, 474) case 397 => Node(160, 0) case 398 => Node(399, 477) case 399 => Node(161, 0)
    case 400 => Node(401, 479) case 401 => Node(162, 0) case 402 => Node(403, 482) case 403 => Node(163, 0)
    case 404 => Node(405, 484) case 405 => Node(164, 0) case 406 => Node(407, 486) case 407 => Node(165, 0)
    case 408 => Node(409, 488) case 409 => Node(166, 0) case 410 => Node(411, 490) case 411 => Node(167, 0)
    case 412 => Node(413, 491) case 413 => Node(414, 493) case 414 => Node(168, 0) case _ => Node(416, 495)
  }

  function DecodeRow13(i: nat): Node {
    match i
    case 416 => Node(169, 0) case 417 => Node(418, 497) case 418 => Node(170, 0) case 419 => Node(420, 499)
    case 420 => Node(171, 0) case 421 => Node(422, 501) case 422 => Node(172, 0) case 423 => Node(424, 503)
    case 424 => Node(173, 0) case 425 => Node(426, 505) case 426 => Node(174, 0) case 427 => Node(175, 0)
    case 428 => Node(429, 507) case 429 => Node(176, 0) case 430 => Node(431, 509) case 431 => Node(177, 0)
    case 432 => Node(178, 0) case 433 => Node(179, 0) case 434 => Node(180, 0) case 435 => Node(181, 0)
    case 436 => Node(182, 0) case 437 => Node(183, 0) case 438 => Node(184, 0) case 439 => Node(185, 0)
    case 440 => Node(186, 0) case 441 => Node(187, 0) case 442 => Node(188, 0) case 443 => Node(189, 0)
    case 444 => Node(190, 0) case 445 => Node(191, 0) case 446 => Node(192, 0) case _ => Node(193, 0)
  }

  function DecodeRow14(i: nat): Node {
    match i
    case 448 => Node(194, 0) case 449 => Node(195, 0) case 450 => Node(196, 0) case 451 => Node(197, 0)
    case 452 => Node(198, 0) case 453 => Node(199, 0) case 454 => Node(200, 0) case 455 => Node(201, 0)
    case 456 => Node(202, 0) case 457 => Node(203, 0) case 458 => Node(204, 0) case 459 => Node(205, 0)
    case 460 => Node(206, 0) case 461 => Node(207, 0) case 462 => Node(208, 0) case 463 => Node(209, 0)
    case 464 => Node(0, 465) case 465 => Node(210, 0) case 466 => Node(211, 0) case 467 => Node(212, 0)
    case 468 => Node(213, 0) case 469 => Node(214, 0) case 470 => Node(215, 0) case 471 => Node(216, 0)
    case 472 => Node(217, 0) case 473 => Node(218, 0) case 474 => Node(219, 0) case 475 => Node(220, 0)
    case 476 => Node(221, 0) case 477 => Node(222, 0) case 478 => Node(223, 0) case _ => Node(224, 0)
  }

  function DecodeRow15(i: nat): Node {
    match i
    case 480 => Node(225, 0) case 481 => Node(226, 0) case 482 => Node(227, 0) case 483 => Node(228, 0)
    case 484 => Node(229, 0) case 485 => Node(230, 0) case 486 => Node(231, 0) case 487 => Node(232, 0)
    case 488 => Node(233, 0) case 489 => Node(234, 0) case 490 => Node(235, 0) case 491 => Node(0, 492)
    case 492 => Node(236, 0) case 493 => Node(237, 0) case 494 => Node(238, 0) case 495 => Node(239, 0)
    case 496 => Node(240, 0) case 497 => Node(241, 0) case 498 => Node(242, 0) case 499 => Node(243, 0)
    case 500 => Node(244, 0) case 501 => Node(245, 0) case 502 => Node(246, 0) case 503 => Node(247, 0)
    case 504 => Node(248, 0) case 505 => Node(249, 0) case 506 => Node(250, 0) case 507 => Node(251, 0)
    case 508 => Node(252, 0) case 509 => Node(253, 0) case 510 => Node(512, 511) case _ => Node(254, 0)
  }

  /** The decoding table. */
  function DecodeRow(i: nat): Node {
    if i < 32 then DecodeRow0(i)
    else if i < 64 then DecodeRow1(i)
    else if i < 96 then DecodeRow2(i)
    else if i < 128 then DecodeRow3(i)
    else if i < 160 then DecodeRow4(i)
    else if i < 192 then DecodeRow5(i)
    else if i < 224 then DecodeRow6(i)
    else if i < 256 then DecodeRow7(i)
    else if i < 288 then DecodeRow8(i)
    else if i < 320 then DecodeRow9(i)
    else if i < 352 then DecodeRow10(i)
    else if i < 384 then DecodeRow11(i)
    else if i < 416 then DecodeRow12(i)
    else if i < 448 then DecodeRow13(i)
    else if i < 480 then DecodeRow14(i)
    else if i < 512 then DecodeRow15(i)
    else Node(255, 0)
  }

  /** The single-bit masks for a 16-bit code word, most significant bit first. */
  function Mask16(k: nat): (m: nat)
    ensures m > 0
  {
    match k
    case 0 => 0x8000 case 1 => 0x4000 case 2 => 0x2000 case 3 => 0x1000
    case 4 => 0x0800 case 5 => 0x0400 case 6 => 0x0200 case 7 => 0x0100
    case 8 => 0x0080 case 9 => 0x0040 case 10 => 0x0020 case 11 => 0x0010
    case 12 => 0x0008 case 13 => 0x0004 case 14 => 0x0002 case _ => 0x0001
  }

  /** Bitwise and with a single-bit mask, compared with zero. */
  predicate Test(x: nat, mask: nat)
    requires mask > 0
  {
    (x / mask) % 2 == 1
  }
}
