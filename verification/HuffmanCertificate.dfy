/**
 A certificate for the decoding tree: where every node hangs and which leaf every byte has.
 It is proof data only: each row is checked against the two code tables, eight rows to a lemma.
 */
module HuffmanCertificate {
  import opened HuffmanTables

  /** `parent` of a node, its `depth` and the bits of the path to it, read as a number. */
  datatype Place = Place(parent: nat, depth: nat, path: nat)

  ghost function PlaceOf0(i: nat): Place {
    match i
    case 0 => Place(0, 0, 0) case 1 => Place(0, 1, 1) case 2 => Place(1, 2, 2) case 3 => Place(2, 3, 5)
    case 4 => Place(3, 4, 10) case 5 => Place(4, 5, 21) case 6 => Place(5, 6, 42) case 7 => Place(6, 7, 85)
    case 8 => Place(7, 8, 171) case 9 => Place(8, 9, 342) case 10 => Place(9, 10, 684) case 11 => Place(10, 11, 1369)
    case 12 => Place(11, 12, 2738) case 13 => Place(12, 13, 5477) case 14 => Place(13, 14, 10955) case 15 => Place(14, 15, 21910)
    case 16 => Place(7, 8, 170) case 17 => Place(16, 9, 341) case 18 => Place(17, 10, 682) case 19 => Place(18, 11, 1364)
    case 20 => Place(19, 12, 2728) case 21 => Place(20, 13, 5456) case 22 => Place(21, 14, 10913) case 23 => Place(22, 15, 21826)
    case 24 => Place(2, 3, 4) case 25 => Place(24, 4, 9) case 26 => Place(25, 5, 19) case 27 => Place(26, 6, 39)
    case 28 => Place(27, 7, 79) case 29 => Place(28, 8, 159) case 30 => Place(29, 9, 319) case _ => Place(30, 10, 639)
  }

  ghost function PlaceOf1(i: nat): Place {
    match i
    case 32 => Place(31, 11, 1278) case 33 => Place(32, 12, 2556) case 34 => Place(33, 13, 5112) case 35 => Place(34, 14, 10225)
    case 36 => Place(35, 15, 20450) case 37 => Place(11, 12, 2739) case 38 => Place(37, 13, 5479) case 39 => Place(38, 14, 10959)
    case 40 => Place(39, 15, 21918) case 41 => Place(10, 11, 1368) case 42 => Place(41, 12, 2737) case 43 => Place(42, 13, 5475)
    case 44 => Place(43, 14, 10951) case 45 => Place(44, 15, 21902) case 46 => Place(17, 10, 683) case 47 => Place(46, 11, 1367)
    case 48 => Place(47, 12, 2735) case 49 => Place(48, 13, 5471) case 50 => Place(49, 14, 10943) case 51 => Place(50, 15, 21886)
    case 52 => Place(47, 12, 2734) case 53 => Place(52, 13, 5469) case 54 => Place(53, 14, 10939) case 55 => Place(54, 15, 21878)
    case 56 => Place(46, 11, 1366) case 57 => Place(56, 12, 2733) case 58 => Place(57, 13, 5466) case 59 => Place(58, 14, 10933)
    case 60 => Place(59, 15, 21866) case 61 => Place(18, 11, 1365) case 62 => Place(61, 12, 2731) case _ => Place(62, 13, 5462)
  }

  ghost function PlaceOf2(i: nat): Place {
    match i
    case 64 => Place(63, 14, 10925) case 65 => Place(64, 15, 21850) case 66 => Place(1, 2, 3) case 67 => Place(66, 3, 7)
    case 68 => Place(67, 4, 15) case 69 => Place(68, 5, 30) case 70 => Place(69, 6, 60) case 71 => Place(70, 7, 121)
    case 72 => Place(71, 8, 243) case 73 => Place(72, 9, 486) case 74 => Place(73, 10, 973) case 75 => Place(61, 12, 2730)
    case 76 => Place(75, 13, 5460) case 77 => Place(76, 14, 10921) case 78 => Place(77, 15, 21842) case 79 => Place(0, 1, 0)
    case 80 => Place(79, 2, 1) case 81 => Place(80, 3, 3) case 82 => Place(81, 4, 7) case 83 => Place(82, 5, 15)
    case 84 => Place(83, 6, 31) case 85 => Place(84, 7, 62) case 86 => Place(85, 8, 125) case 87 => Place(86, 9, 250)
    case 88 => Place(87, 10, 501) case 89 => Place(88, 11, 1003) case 90 => Place(89, 12, 2006) case 91 => Place(90, 13, 4012)
    case 92 => Place(91, 14, 8025) case 93 => Place(92, 15, 16050) case 94 => Place(57, 13, 5467) case _ => Place(94, 14, 10935)
  }

  ghost function PlaceOf3(i: nat): Place {
    match i
    case 96 => Place(95, 15, 21870) case 97 => Place(69, 6, 61) case 98 => Place(97, 7, 122) case 99 => Place(19, 12, 2729)
    case 100 => Place(99, 13, 5458) case 101 => Place(100, 14, 10917) case 102 => Place(101, 15, 21834) case 103 => Place(31, 11, 1279)
    case 104 => Place(103, 12, 2559) case 105 => Place(104, 13, 5118) case 106 => Place(105, 14, 10237) case 107 => Place(106, 15, 20474)
    case 108 => Place(32, 12, 2557) case 109 => Place(108, 13, 5114) case 110 => Place(109, 14, 10229) case 111 => Place(110, 15, 20458)
    case 112 => Place(89, 12, 2007) case 113 => Place(112, 13, 4014) case 114 => Place(113, 14, 8029) case 115 => Place(114, 15, 16058)
    case 116 => Place(9, 10, 685) case 117 => Place(116, 11, 1370) case 118 => Place(117, 12, 2740) case 119 => Place(118, 13, 5480)
    case 120 => Place(119, 14, 10961) case 121 => Place(120, 15, 21922) case 122 => Place(37, 13, 5478) case 123 => Place(122, 14, 10957)
    case 124 => Place(123, 15, 21914) case 125 => Place(12, 13, 5476) case 126 => Place(125, 14, 10953) case _ => Place(126, 15, 21906)
  }

  ghost function PlaceOf4(i: nat): Place {
    match i
    case 128 => Place(42, 13, 5474) case 129 => Place(128, 14, 10949) case 130 => Place(129, 15, 21898) case 131 => Place(41, 12, 2736)
    case 132 => Place(131, 13, 5472) case 133 => Place(132, 14, 10945) case 134 => Place(133, 15, 21890) case 135 => Place(48, 13, 5470)
    case 136 => Place(135, 14, 10941) case 137 => Place(136, 15, 21882) case 138 => Place(52, 13, 5468) case 139 => Place(138, 14, 10937)
    case 140 => Place(139, 15, 21874) case 141 => Place(116, 11, 1371) case 142 => Place(141, 12, 2742) case 143 => Place(142, 13, 5484)
    case 144 => Place(143, 14, 10968) case 145 => Place(131, 13, 5473) case 146 => Place(145, 14, 10947) case 147 => Place(146, 15, 21894)
    case 148 => Place(56, 12, 2732) case 149 => Place(148, 13, 5465) case 150 => Place(149, 14, 10931) case 151 => Place(150, 15, 21862)
    case 152 => Place(62, 13, 5463) case 153 => Place(152, 14, 10927) case 154 => Place(153, 15, 21854) case 155 => Place(75, 13, 5461)
    case 156 => Place(155, 14, 10923) case 157 => Place(156, 15, 21846) case 158 => Place(99, 13, 5459) case _ => Place(158, 14, 10919)
  }

  ghost function PlaceOf5(i: nat): Place {
    match i
    case 160 => Place(159, 15, 21838) case 161 => Place(20, 13, 5457) case 162 => Place(161, 14, 10915) case 163 => Place(162, 15, 21830)
    case 164 => Place(66, 3, 6) case 165 => Place(79, 2, 0) case 166 => Place(165, 3, 1) case 167 => Place(166, 4, 3)
    case 168 => Place(167, 5, 7) case 169 => Place(168, 6, 14) case 170 => Place(169, 7, 29) case 171 => Place(170, 8, 58)
    case 172 => Place(171, 9, 117) case 173 => Place(8, 9, 343) case 174 => Place(173, 10, 687) case 175 => Place(165, 3, 0)
    case 176 => Place(175, 4, 0) case 177 => Place(176, 5, 0) case 178 => Place(177, 6, 0) case 179 => Place(178, 7, 0)
    case 180 => Place(179, 8, 0) case 181 => Place(180, 9, 0) case 182 => Place(181, 10, 1) case 183 => Place(182, 11, 3)
    case 184 => Place(88, 11, 1002) case 185 => Place(184, 12, 2004) case 186 => Place(117, 12, 2741) case 187 => Place(186, 13, 5483)
    case 188 => Place(187, 14, 10967) case 189 => Place(181, 10, 0) case 190 => Place(189, 11, 0) case _ => Place(190, 12, 0)
  }

  ghost function PlaceOf6(i: nat): Place {
    match i
    case 192 => Place(187, 14, 10966) case 193 => Place(85, 8, 124) case 194 => Place(193, 9, 248) case 195 => Place(168, 6, 15)
    case 196 => Place(195, 7, 30) case 197 => Place(196, 8, 60) case 198 => Place(197, 9, 121) case 199 => Place(87, 10, 500)
    case 200 => Place(199, 11, 1000) case 201 => Place(190, 12, 1) case 202 => Place(175, 4, 1) case 203 => Place(202, 5, 2)
    case 204 => Place(203, 6, 4) case 205 => Place(204, 7, 9) case 206 => Place(83, 6, 30) case 207 => Place(206, 7, 61)
    case 208 => Place(3, 4, 11) case 209 => Place(208, 5, 23) case 210 => Place(209, 6, 46) case 211 => Place(167, 5, 6)
    case 212 => Place(211, 6, 12) case 213 => Place(212, 7, 25) case 214 => Place(166, 4, 2) case 215 => Place(214, 5, 4)
    case 216 => Place(215, 6, 8) case 217 => Place(216, 7, 17) case 218 => Place(97, 7, 123) case 219 => Place(218, 8, 246)
    case 220 => Place(196, 8, 61) case 221 => Place(28, 8, 158) case 222 => Place(221, 9, 316) case _ => Place(209, 6, 47)
  }

  ghost function PlaceOf7(i: nat): Place {
    match i
    case 224 => Place(223, 7, 94) case 225 => Place(224, 8, 189) case 226 => Place(225, 9, 379) case 227 => Place(193, 9, 249)
    case 228 => Place(180, 9, 1) case 229 => Place(16, 9, 340) case 230 => Place(225, 9, 378) case 231 => Place(29, 9, 318)
    case 232 => Place(178, 7, 1) case 233 => Place(232, 8, 3) case 234 => Place(141, 12, 2743) case 235 => Place(234, 13, 5487)
    case 236 => Place(142, 13, 5485) case 237 => Place(197, 9, 120) case 238 => Place(212, 7, 24) case 239 => Place(238, 8, 48)
    case 240 => Place(239, 9, 96) case 241 => Place(189, 11, 1) case 242 => Place(184, 12, 2005) case 243 => Place(169, 7, 28)
    case 244 => Place(206, 7, 60) case 245 => Place(27, 7, 78) case 246 => Place(68, 5, 31) case 247 => Place(246, 6, 63)
    case 248 => Place(247, 7, 127) case 249 => Place(215, 6, 9) case 250 => Place(224, 8, 188) case 251 => Place(232, 8, 2)
    case 252 => Place(179, 8, 1) case 253 => Place(70, 7, 120) case 254 => Place(253, 8, 241) case _ => Place(182, 11, 2)
  }

  ghost function PlaceOf8(i: nat): Place {
    match i
    case 256 => Place(238, 8, 49) case 257 => Place(71, 8, 242) case 258 => Place(211, 6, 13) case 259 => Place(258, 7, 26)
    case 260 => Place(202, 5, 3) case 261 => Place(260, 6, 7) case 262 => Place(261, 7, 14) case 263 => Place(261, 7, 15)
    case 264 => Place(223, 7, 95) case 265 => Place(173, 10, 686) case 266 => Place(265, 11, 1373) case 267 => Place(195, 7, 31)
    case 268 => Place(203, 6, 5) case 269 => Place(258, 7, 27) case 270 => Place(72, 9, 487) case 271 => Place(253, 8, 240)
    case 272 => Place(271, 9, 481) case 273 => Place(216, 7, 16) case 274 => Place(273, 8, 32) case 275 => Place(247, 7, 126)
    case 276 => Place(275, 8, 252) case 277 => Place(30, 10, 638) case 278 => Place(221, 9, 317) case 279 => Place(265, 11, 1372)
    case 280 => Place(279, 12, 2745) case 281 => Place(170, 8, 59) case 282 => Place(281, 9, 119) case 283 => Place(279, 12, 2744)
    case 284 => Place(186, 13, 5482) case 285 => Place(284, 14, 10965) case 286 => Place(171, 9, 116) case _ => Place(286, 10, 233)
  }

  ghost function PlaceOf9(i: nat): Place {
    match i
    case 288 => Place(287, 11, 466) case 289 => Place(288, 12, 933) case 290 => Place(289, 13, 1866) case 291 => Place(284, 14, 10964)
    case 292 => Place(4, 5, 20) case 293 => Place(260, 6, 6) case 294 => Place(26, 6, 38) case 295 => Place(82, 5, 14)
    case 296 => Place(80, 3, 2) case 297 => Place(177, 6, 1) case 298 => Place(5, 6, 43) case 299 => Place(246, 6, 62)
    case 300 => Place(81, 4, 6) case 301 => Place(286, 10, 232) case 302 => Place(275, 8, 253) case 303 => Place(214, 5, 5)
    case 304 => Place(208, 5, 22) case 305 => Place(304, 6, 44) case 306 => Place(24, 4, 8) case 307 => Place(304, 6, 45)
    case 308 => Place(204, 7, 8) case 309 => Place(199, 11, 1001) case 310 => Place(309, 12, 2002) case 311 => Place(67, 4, 14)
    case 312 => Place(311, 5, 28) case 313 => Place(25, 5, 18) case 314 => Place(311, 5, 29) case 315 => Place(176, 5, 1)
    case 316 => Place(218, 8, 247) case 317 => Place(6, 7, 84) case 318 => Place(86, 9, 251) case _ => Place(73, 10, 972)
  }

  ghost function PlaceOf10(i: nat): Place {
    match i
    case 320 => Place(84, 7, 63) case 321 => Place(118, 13, 5481) case 322 => Place(321, 14, 10962) case 323 => Place(288, 12, 932)
    case 324 => Place(323, 13, 1865) case 325 => Place(321, 14, 10963) case 326 => Place(287, 11, 467) case 327 => Place(326, 12, 934)
    case 328 => Place(104, 13, 5119) case 329 => Place(328, 14, 10239) case 330 => Place(329, 15, 20478) case 331 => Place(103, 12, 2558)
    case 332 => Place(331, 13, 5117) case 333 => Place(332, 14, 10235) case 334 => Place(333, 15, 20470) case 335 => Place(273, 8, 33)
    case 336 => Place(108, 13, 5115) case 337 => Place(336, 14, 10231) case 338 => Place(337, 15, 20462) case 339 => Place(33, 13, 5113)
    case 340 => Place(339, 14, 10227) case 341 => Place(340, 15, 20454) case 342 => Place(271, 9, 480) case 343 => Place(112, 13, 4015)
    case 344 => Place(343, 14, 8031) case 345 => Place(344, 15, 16062) case 346 => Place(90, 13, 4013) case 347 => Place(346, 14, 8027)
    case 348 => Place(347, 15, 16054) case 349 => Place(323, 13, 1864) case 350 => Place(349, 14, 3728) case _ => Place(119, 14, 10960)
  }

  ghost function PlaceOf11(i: nat): Place {
    match i
    case 352 => Place(351, 15, 21920) case 353 => Place(38, 14, 10958) case 354 => Place(353, 15, 21916) case 355 => Place(122, 14, 10956)
    case 356 => Place(355, 15, 21912) case 357 => Place(13, 14, 10954) case 358 => Place(357, 15, 21908) case 359 => Place(125, 14, 10952)
    case 360 => Place(359, 15, 21904) case 361 => Place(43, 14, 10950) case 362 => Place(361, 15, 21900) case 363 => Place(234, 13, 5486)
    case 364 => Place(128, 14, 10948) case 365 => Place(364, 15, 21896) case 366 => Place(145, 14, 10946) case 367 => Place(366, 15, 21892)
    case 368 => Place(132, 14, 10944) case 369 => Place(368, 15, 21888) case 370 => Place(49, 14, 10942) case 371 => Place(370, 15, 21884)
    case 372 => Place(135, 14, 10940) case 373 => Place(372, 15, 21880) case 374 => Place(281, 9, 118) case 375 => Place(53, 14, 10938)
    case 376 => Place(375, 15, 21876) case 377 => Place(138, 14, 10936) case 378 => Place(377, 15, 21872) case 379 => Place(94, 14, 10934)
    case 380 => Place(379, 15, 21868) case 381 => Place(58, 14, 10932) case 382 => Place(381, 15, 21864) case _ => Place(143, 14, 10969)
  }

  ghost function PlaceOf12(i: nat): Place {
    match i
    case 384 => Place(309, 12, 2003) case 385 => Place(149, 14, 10930) case 386 => Place(385, 15, 21860) case 387 => Place(148, 13, 5464)
    case 388 => Place(387, 14, 10928) case 389 => Place(388, 15, 21856) case 390 => Place(152, 14, 10926) case 391 => Place(390, 15, 21852)
    case 392 => Place(63, 14, 10924) case 393 => Place(392, 15, 21848) case 394 => Place(155, 14, 10922) case 395 => Place(394, 15, 21844)
    case 396 => Place(76, 14, 10920) case 397 => Place(396, 15, 21840) case 398 => Place(158, 14, 10918) case 399 => Place(398, 15, 21836)
    case 400 => Place(100, 14, 10916) case 401 => Place(400, 15, 21832) case 402 => Place(161, 14, 10914) case 403 => Place(402, 15, 21828)
    case 404 => Place(21, 14, 10912) case 405 => Place(404, 15, 21824) case 406 => Place(328, 14, 10238) case 407 => Place(406, 15, 20476)
    case 408 => Place(105, 14, 10236) case 409 => Place(408, 15, 20472) case 410 => Place(332, 14, 10234) case 411 => Place(410, 15, 20468)
    case 412 => Place(331, 13, 5116) case 413 => Place(412, 14, 10232) case 414 => Place(413, 15, 20464) case _ => Place(336, 14, 10230)
  }

  ghost function PlaceOf13(i: nat): Place {
    match i
    case 416 => Place(415, 15, 20460) case 417 => Place(109, 14, 10228) case 418 => Place(417, 15, 20456) case 419 => Place(339, 14, 10226)
    case 420 => Place(419, 15, 20452) case 421 => Place(34, 14, 10224) case 422 => Place(421, 15, 20448) case 423 => Place(343, 14, 8030)
    case 424 => Place(423, 15, 16060) case 425 => Place(113, 14, 8028) case 426 => Place(425, 15, 16056) case 427 => Place(289, 13, 1867)
    case 428 => Place(346, 14, 8026) case 429 => Place(428, 15, 16052) case 430 => Place(91, 14, 8024) case 431 => Place(430, 15, 16048)
    case 432 => Place(120, 15, 21923) case 433 => Place(351, 15, 21921) case 434 => Place(39, 15, 21919) case 435 => Place(353, 15, 21917)
    case 436 => Place(123, 15, 21915) case 437 => Place(355, 15, 21913) case 438 => Place(14, 15, 21911) case 439 => Place(357, 15, 21909)
    case 440 => Place(126, 15, 21907) case 441 => Place(359, 15, 21905) case 442 => Place(44, 15, 21903) case 443 => Place(361, 15, 21901)
    case 444 => Place(129, 15, 21899) case 445 => Place(364, 15, 21897) case 446 => Place(146, 15, 21895) case _ => Place(366, 15, 21893)
  }

  ghost function PlaceOf14(i: nat): Place {
    match i
    case 448 => Place(133, 15, 21891) case 449 => Place(368, 15, 21889) case 450 => Place(50, 15, 21887) case 451 => Place(370, 15, 21885)
    case 452 => Place(136, 15, 21883) case 453 => Place(372, 15, 21881) case 454 => Place(54, 15, 21879) case 455 => Place(375, 15, 21877)
    case 456 => Place(139, 15, 21875) case 457 => Place(377, 15, 21873) case 458 => Place(95, 15, 21871) case 459 => Place(379, 15, 21869)
    case 460 => Place(59, 15, 21867) case 461 => Place(381, 15, 21865) case 462 => Place(150, 15, 21863) case 463 => Place(385, 15, 21861)
    case 464 => Place(387, 14, 10929) case 465 => Place(464, 15, 21859) case 466 => Place(388, 15, 21857) case 467 => Place(153, 15, 21855)
    case 468 => Place(390, 15, 21853) case 469 => Place(64, 15, 21851) case 470 => Place(392, 15, 21849) case 471 => Place(156, 15, 21847)
    case 472 => Place(394, 15, 21845) case 473 => Place(77, 15, 21843) case 474 => Place(396, 15, 21841) case 475 => Place(159, 15, 21839)
    case 476 => Place(326, 12, 935) case 477 => Place(398, 15, 21837) case 478 => Place(101, 15, 21835) case _ => Place(400, 15, 21833)
  }

  ghost function PlaceOf15(i: nat): Place {
    match i
    case 480 => Place(239, 9, 97) case 481 => Place(162, 15, 21831) case 482 => Place(402, 15, 21829) case 483 => Place(22, 15, 21827)
    case 484 => Place(404, 15, 21825) case 485 => Place(329, 15, 20479) case 486 => Place(406, 15, 20477) case 487 => Place(106, 15, 20475)
    case 488 => Place(408, 15, 20473) case 489 => Place(333, 15, 20471) case 490 => Place(410, 15, 20469) case 491 => Place(412, 14, 10233)
    case 492 => Place(491, 15, 20467) case 493 => Place(413, 15, 20465) case 494 => Place(337, 15, 20463) case 495 => Place(415, 15, 20461)
    case 496 => Place(110, 15, 20459) case 497 => Place(417, 15, 20457) case 498 => Place(340, 15, 20455) case 499 => Place(419, 15, 20453)
    case 500 => Place(35, 15, 20451) case 501 => Place(421, 15, 20449) case 502 => Place(344, 15, 16063) case 503 => Place(423, 15, 16061)
    case 504 => Place(114, 15, 16059) case 505 => Place(425, 15, 16057) case 506 => Place(347, 15, 16055) case 507 => Place(428, 15, 16053)
    case 508 => Place(92, 15, 16051) case 509 => Place(430, 15, 16049) case 510 => Place(349, 14, 3729) case _ => Place(510, 15, 7459)
  }

  /** Place of every node of the decoding tree. */
  ghost function PlaceOf(i: nat): Place {
    if i < 32 then PlaceOf0(i)
    else if i < 64 then PlaceOf1(i)
    else if i < 96 then PlaceOf2(i)
    else if i < 128 then PlaceOf3(i)
    else if i < 160 then PlaceOf4(i)
    else if i < 192 then PlaceOf5(i)
    else if i < 224 then PlaceOf6(i)
    else if i < 256 then PlaceOf7(i)
    else if i < 288 then PlaceOf8(i)
    else if i < 320 then PlaceOf9(i)
    else if i < 352 then PlaceOf10(i)
    else if i < 384 then PlaceOf11(i)
    else if i < 416 then PlaceOf12(i)
    else if i < 448 then PlaceOf13(i)
    else if i < 480 then PlaceOf14(i)
    else if i < 512 then PlaceOf15(i)
    else Place(510, 15, 7458)
  }

  ghost function LeafOf0(c: nat): nat {
    match c
    case 0 => 15 case 1 => 23 case 2 => 36 case 3 => 40 case 4 => 45 case 5 => 51 case 6 => 55 case 7 => 60
    case 8 => 65 case 9 => 74 case 10 => 78 case 11 => 93 case 12 => 96 case 13 => 98 case 14 => 102 case 15 => 107
    case 16 => 111 case 17 => 115 case 18 => 121 case 19 => 124 case 20 => 127 case 21 => 130 case 22 => 134 case 23 => 137
    case 24 => 140 case 25 => 144 case 26 => 147 case 27 => 151 case 28 => 154 case 29 => 157 case 30 => 160 case _ => 163
  }

  ghost function LeafOf1(c: nat): nat {
    match c
    case 32 => 164 case 33 => 172 case 34 => 174 case 35 => 183 case 36 => 185 case 37 => 188 case 38 => 191 case 39 => 192
    case 40 => 194 case 41 => 198 case 42 => 200 case 43 => 201 case 44 => 205 case 45 => 207 case 46 => 210 case 47 => 213
    case 48 => 217 case 49 => 219 case 50 => 220 case 51 => 222 case 52 => 226 case 53 => 227 case 54 => 228 case 55 => 229
    case 56 => 230 case 57 => 231 case 58 => 233 case 59 => 235 case 60 => 236 case 61 => 237 case 62 => 240 case _ => 241
  }

  ghost function LeafOf2(c: nat): nat {
    match c
    case 64 => 242 case 65 => 243 case 66 => 244 case 67 => 245 case 68 => 248 case 69 => 249 case 70 => 250 case 71 => 251
    case 72 => 252 case 73 => 254 case 74 => 255 case 75 => 256 case 76 => 257 case 77 => 259 case 78 => 262 case 79 => 263
    case 80 => 264 case 81 => 266 case 82 => 267 case 83 => 268 case 84 => 269 case 85 => 270 case 86 => 272 case 87 => 274
    case 88 => 276 case 89 => 277 case 90 => 278 case 91 => 280 case 92 => 282 case 93 => 283 case 94 => 285 case _ => 290
  }

  ghost function LeafOf3(c: nat): nat {
    match c
    case 96 => 291 case 97 => 292 case 98 => 293 case 99 => 294 case 100 => 295 case 101 => 296 case 102 => 297 case 103 => 298
    case 104 => 299 case 105 => 300 case 106 => 301 case 107 => 302 case 108 => 303 case 109 => 305 case 110 => 306 case 111 => 307
    case 112 => 308 case 113 => 310 case 114 => 312 case 115 => 313 case 116 => 314 case 117 => 315 case 118 => 316 case 119 => 317
    case 120 => 318 case 121 => 319 case 122 => 320 case 123 => 322 case 124 => 324 case 125 => 325 case 126 => 327 case _ => 330
  }

  ghost function LeafOf4(c: nat): nat {
    match c
    case 128 => 334 case 129 => 335 case 130 => 338 case 131 => 341 case 132 => 342 case 133 => 345 case 134 => 348 case 135 => 350
    case 136 => 352 case 137 => 354 case 138 => 356 case 139 => 358 case 140 => 360 case 141 => 362 case 142 => 363 case 143 => 365
    case 144 => 367 case 145 => 369 case 146 => 371 case 147 => 373 case 148 => 374 case 149 => 376 case 150 => 378 case 151 => 380
    case 152 => 382 case 153 => 383 case 154 => 384 case 155 => 386 case 156 => 389 case 157 => 391 case 158 => 393 case _ => 395
  }

  ghost function LeafOf5(c: nat): nat {
    match c
    case 160 => 397 case 161 => 399 case 162 => 401 case 163 => 403 case 164 => 405 case 165 => 407 case 166 => 409 case 167 => 411
    case 168 => 414 case 169 => 416 case 170 => 418 case 171 => 420 case 172 => 422 case 173 => 424 case 174 => 426 case 175 => 427
    case 176 => 429 case 177 => 431 case 178 => 432 case 179 => 433 case 180 => 434 case 181 => 435 case 182 => 436 case 183 => 437
    case 184 => 438 case 185 => 439 case 186 => 440 case 187 => 441 case 188 => 442 case 189 => 443 case 190 => 444 case _ => 445
  }

  ghost function LeafOf6(c: nat): nat {
    match c
    case 192 => 446 case 193 => 447 case 194 => 448 case 195 => 449 case 196 => 450 case 197 => 451 case 198 => 452 case 199 => 453
    case 200 => 454 case 201 => 455 case 202 => 456 case 203 => 457 case 204 => 458 case 205 => 459 case 206 => 460 case 207 => 461
    case 208 => 462 case 209 => 463 case 210 => 465 case 211 => 466 case 212 => 467 case 213 => 468 case 214 => 469 case 215 => 470
    case 216 => 471 case 217 => 472 case 218 => 473 case 219 => 474 case 220 => 475 case 221 => 476 case 222 => 477 case _ => 478
  }

  ghost function LeafOf7(c: nat): nat {
    match c
    case 224 => 479 case 225 => 480 case 226 => 481 case 227 => 482 case 228 => 483 case 229 => 484 case 230 => 485 case 231 => 486
    case 232 => 487 case 233 => 488 case 234 => 489 case 235 => 490 case 236 => 492 case 237 => 493 case 238 => 494 case 239 => 495
    case 240 => 496 case 241 => 497 case 242 => 498 case 243 => 499 case 244 => 500 case 245 => 501 case 246 => 502 case 247 => 503
    case 248 => 504 case 249 => 505 case 250 => 506 case 251 => 507 case 252 => 508 case 253 => 509 case 254 => 511 case _ => 512
  }

  /** Leaf of every byte. */
  ghost function LeafOf(c: nat): nat {
    if c < 32 then LeafOf0(c)
    else if c < 64 then LeafOf1(c)
    else if c < 96 then LeafOf2(c)
    else if c < 128 then LeafOf3(c)
    else if c < 160 then LeafOf4(c)
    else if c < 192 then LeafOf5(c)
    else if c < 224 then LeafOf6(c)
    else LeafOf7(c)
  }

  /** Row `i` of the certificate fits the decoding tree, and its successors are nodes. */
  ghost predicate NodeChecks(i: nat) {
    var p := PlaceOf(i);
    && DecodeRow(i).node1 < NODES
    && DecodeRow(i).node2 < NODES
    && if i == 0 then p == Place(0, 0, 0)
       else
         && p.parent < NODES
         && 0 < p.depth
         && PlaceOf(p.parent).depth == p.depth - 1
         && PlaceOf(p.parent).path == p.path / 2
         && DecodeRow(p.parent).node2 != 0
         && i == if p.path % 2 == 1 then DecodeRow(p.parent).node2 else DecodeRow(p.parent).node1
  }

  /** The leaf of byte `c` sits where its code word says. */
  ghost predicate ByteChecks(c: nat) {
    var i, e := LeafOf(c), EncodeRow(c);
    && i < NODES
    && DecodeRow(i) == Node(c, 0)
    && 1 <= e.len <= 15
    && PlaceOf(i).depth == e.len
    && PlaceOf(i).path == e.word / Mask16(e.len - 1)
  }

  lemma Nodes0() ensures forall i: nat :: 0 <= i < 8 ==> NodeChecks(i) {}
  lemma Nodes1() ensures forall i: nat :: 8 <= i < 16 ==> NodeChecks(i) {}
  lemma Nodes2() ensures forall i: nat :: 16 <= i < 24 ==> NodeChecks(i) {}
  lemma Nodes3() ensures forall i: nat :: 24 <= i < 32 ==> NodeChecks(i) {}
  lemma Nodes4() ensures forall i: nat :: 32 <= i < 40 ==> NodeChecks(i) {}
  lemma Nodes5() ensures forall i: nat :: 40 <= i < 48 ==> NodeChecks(i) {}
  lemma Nodes6() ensures forall i: nat :: 48 <= i < 56 ==> NodeChecks(i) {}
  lemma Nodes7() ensures forall i: nat :: 56 <= i < 64 ==> NodeChecks(i) {}
  lemma Nodes8() ensures forall i: nat :: 64 <= i < 72 ==> NodeChecks(i) {}
  lemma Nodes9() ensures forall i: nat :: 72 <= i < 80 ==> NodeChecks(i) {}
  lemma Nodes10() ensures forall i: nat :: 80 <= i < 88 ==> NodeChecks(i) {}
  lemma Nodes11() ensures forall i: nat :: 88 <= i < 96 ==> NodeChecks(i) {}
  lemma Nodes12() ensures forall i: nat :: 96 <= i < 104 ==> NodeChecks(i) {}
  lemma Nodes13() ensures forall i: nat :: 104 <= i < 112 ==> NodeChecks(i) {}
  lemma Nodes14() ensures forall i: nat :: 112 <= i < 120 ==> NodeChecks(i) {}
  lemma Nodes15() ensures forall i: nat :: 120 <= i < 128 ==> NodeChecks(i) {}
  lemma Nodes16() ensures forall i: nat :: 128 <= i < 136 ==> NodeChecks(i) {}
  lemma Nodes17() ensures forall i: nat :: 136 <= i < 144 ==> NodeChecks(i) {}
  lemma Nodes18() ensures forall i: nat :: 144 <= i < 152 ==> NodeChecks(i) {}
  lemma Nodes19() ensures forall i: nat :: 152 <= i < 160 ==> NodeChecks(i) {}
  lemma Nodes20() ensures forall i: nat :: 160 <= i < 168 ==> NodeChecks(i) {}
  lemma Nodes21() ensures forall i: nat :: 168 <= i < 176 ==> NodeChecks(i) {}
  lemma Nodes22() ensures forall i: nat :: 176 <= i < 184 ==> NodeChecks(i) {}
  lemma Nodes23() ensures forall i: nat :: 184 <= i < 192 ==> NodeChecks(i) {}
  lemma Nodes24() ensures forall i: nat :: 192 <= i < 200 ==> NodeChecks(i) {}
  lemma Nodes25() ensures forall i: nat :: 200 <= i < 208 ==> NodeChecks(i) {}
  lemma Nodes26() ensures forall i: nat :: 208 <= i < 216 ==> NodeChecks(i) {}
  lemma Nodes27() ensures forall i: nat :: 216 <= i < 224 ==> NodeChecks(i) {}
  lemma Nodes28() ensures forall i: nat :: 224 <= i < 232 ==> NodeChecks(i) {}
  lemma Nodes29() ensures forall i: nat :: 232 <= i < 240 ==> NodeChecks(i) {}
  lemma Nodes30() ensures forall i: nat :: 240 <= i < 248 ==> NodeChecks(i) {}
  lemma Nodes31() ensures forall i: nat :: 248 <= i < 256 ==> NodeChecks(i) {}
  lemma Nodes32() ensures forall i: nat :: 256 <= i < 264 ==> NodeChecks(i) {}
  lemma Nodes33() ensures forall i: nat :: 264 <= i < 272 ==> NodeChecks(i) {}
  lemma Nodes34() ensures forall i: nat :: 272 <= i < 280 ==> NodeChecks(i) {}
  lemma Nodes35() ensures forall i: nat :: 280 <= i < 288 ==> NodeChecks(i) {}
  lemma Nodes36() ensures forall i: nat :: 288 <= i < 296 ==> NodeChecks(i) {}
  lemma Nodes37() ensures forall i: nat :: 296 <= i < 304 ==> NodeChecks(i) {}
  lemma Nodes38() ensures forall i: nat :: 304 <= i < 312 ==> NodeChecks(i) {}
  lemma Nodes39() ensures forall i: nat :: 312 <= i < 320 ==> NodeChecks(i) {}
  lemma Nodes40() ensures forall i: nat :: 320 <= i < 328 ==> NodeChecks(i) {}
  lemma Nodes41() ensures forall i: nat :: 328 <= i < 336 ==> NodeChecks(i) {}
  lemma Nodes42() ensures forall i: nat :: 336 <= i < 344 ==> NodeChecks(i) {}
  lemma Nodes43() ensures forall i: nat :: 344 <= i < 352 ==> NodeChecks(i) {}
  lemma Nodes44() ensures forall i: nat :: 352 <= i < 360 ==> NodeChecks(i) {}
  lemma Nodes45() ensures forall i: nat :: 360 <= i < 368 ==> NodeChecks(i) {}
  lemma Nodes46() ensures forall i: nat :: 368 <= i < 376 ==> NodeChecks(i) {}
  lemma Nodes47() ensures forall i: nat :: 376 <= i < 384 ==> NodeChecks(i) {}
  lemma Nodes48() ensures forall i: nat :: 384 <= i < 392 ==> NodeChecks(i) {}
  lemma Nodes49() ensures forall i: nat :: 392 <= i < 400 ==> NodeChecks(i) {}
  lemma Nodes50() ensures forall i: nat :: 400 <= i < 408 ==> NodeChecks(i) {}
  lemma Nodes51() ensures forall i: nat :: 408 <= i < 416 ==> NodeChecks(i) {}
  lemma Nodes52() ensures forall i: nat :: 416 <= i < 424 ==> NodeChecks(i) {}
  lemma Nodes53() ensures forall i: nat :: 424 <= i < 432 ==> NodeChecks(i) {}
  lemma Nodes54() ensures forall i: nat :: 432 <= i < 440 ==> NodeChecks(i) {}
  lemma Nodes55() ensures forall i: nat :: 440 <= i < 448 ==> NodeChecks(i) {}
  lemma Nodes56() ensures forall i: nat :: 448 <= i < 456 ==> NodeChecks(i) {}
  lemma Nodes57() ensures forall i: nat :: 456 <= i < 464 ==> NodeChecks(i) {}
  lemma Nodes58() ensures forall i: nat :: 464 <= i < 472 ==> NodeChecks(i) {}
  lemma Nodes59() ensures forall i: nat :: 472 <= i < 480 ==> NodeChecks(i) {}
  lemma Nodes60() ensures forall i: nat :: 480 <= i < 488 ==> NodeChecks(i) {}
  lemma Nodes61() ensures forall i: nat :: 488 <= i < 496 ==> NodeChecks(i) {}
  lemma Nodes62() ensures forall i: nat :: 496 <= i < 504 ==> NodeChecks(i) {}
  lemma Nodes63() ensures forall i: nat :: 504 <= i < 513 ==> NodeChecks(i) {}

  lemma Bytes0() ensures forall c: nat :: 0 <= c < 8 ==> ByteChecks(c) {}
  lemma Bytes1() ensures forall c: nat :: 8 <= c < 16 ==> ByteChecks(c) {}
  lemma Bytes2() ensures forall c: nat :: 16 <= c < 24 ==> ByteChecks(c) {}
  lemma Bytes3() ensures forall c: nat :: 24 <= c < 32 ==> ByteChecks(c) {}
  lemma Bytes4() ensures forall c: nat :: 32 <= c < 40 ==> ByteChecks(c) {}
  lemma Bytes5() ensures forall c: nat :: 40 <= c < 48 ==> ByteChecks(c) {}
  lemma Bytes6() ensures forall c: nat :: 48 <= c < 56 ==> ByteChecks(c) {}
  lemma Bytes7() ensures forall c: nat :: 56 <= c < 64 ==> ByteChecks(c) {}
  lemma Bytes8() ensures forall c: nat :: 64 <= c < 72 ==> ByteChecks(c) {}
  lemma Bytes9() ensures forall c: nat :: 72 <= c < 80 ==> ByteChecks(c) {}
  lemma Bytes10() ensures forall c: nat :: 80 <= c < 88 ==> ByteChecks(c) {}
  lemma Bytes11() ensures forall c: nat :: 88 <= c < 96 ==> ByteChecks(c) {}
  lemma Bytes12() ensures forall c: nat :: 96 <= c < 104 ==> ByteChecks(c) {}
  lemma Bytes13() ensures forall c: nat :: 104 <= c < 112 ==> ByteChecks(c) {}
  lemma Bytes14() ensures forall c: nat :: 112 <= c < 120 ==> ByteChecks(c) {}
  lemma Bytes15() ensures forall c: nat :: 120 <= c < 128 ==> ByteChecks(c) {}
  lemma Bytes16() ensures forall c: nat :: 128 <= c < 136 ==> ByteChecks(c) {}
  lemma Bytes17() ensures forall c: nat :: 136 <= c < 144 ==> ByteChecks(c) {}
  lemma Bytes18() ensures forall c: nat :: 144 <= c < 152 ==> ByteChecks(c) {}
  lemma Bytes19() ensures forall c: nat :: 152 <= c < 160 ==> ByteChecks(c) {}
  lemma Bytes20() ensures forall c: nat :: 160 <= c < 168 ==> ByteChecks(c) {}
  lemma Bytes21() ensures forall c: nat :: 168 <= c < 176 ==> ByteChecks(c) {}
  lemma Bytes22() ensures forall c: nat :: 176 <= c < 184 ==> ByteChecks(c) {}
  lemma Bytes23() ensures forall c: nat :: 184 <= c < 192 ==> ByteChecks(c) {}
  lemma Bytes24() ensures forall c: nat :: 192 <= c < 200 ==> ByteChecks(c) {}
  lemma Bytes25() ensures forall c: nat :: 200 <= c < 208 ==> ByteChecks(c) {}
  lemma Bytes26() ensures forall c: nat :: 208 <= c < 216 ==> ByteChecks(c) {}
  lemma Bytes27() ensures forall c: nat :: 216 <= c < 224 ==> ByteChecks(c) {}
  lemma Bytes28() ensures forall c: nat :: 224 <= c < 232 ==> ByteChecks(c) {}
  lemma Bytes29() ensures forall c: nat :: 232 <= c < 240 ==> ByteChecks(c) {}
  lemma Bytes30() ensures forall c: nat :: 240 <= c < 248 ==> ByteChecks(c) {}
  lemma Bytes31() ensures forall c: nat :: 248 <= c < 256 ==> ByteChecks(c) {}

  lemma AllNodes(i: nat)
    requires i < NODES
    ensures NodeChecks(i)
  {
    if i < 8 { Nodes0(); } else if i < 16 { Nodes1(); } else if i < 24 { Nodes2(); } else
    if i < 32 { Nodes3(); } else if i < 40 { Nodes4(); } else if i < 48 { Nodes5(); } else
    if i < 56 { Nodes6(); } else if i < 64 { Nodes7(); } else if i < 72 { Nodes8(); } else
    if i < 80 { Nodes9(); } else if i < 88 { Nodes10(); } else if i < 96 { Nodes11(); } else
    if i < 104 { Nodes12(); } else if i < 112 { Nodes13(); } else if i < 120 { Nodes14(); } else
    if i < 128 { Nodes15(); } else if i < 136 { Nodes16(); } else if i < 144 { Nodes17(); } else
    if i < 152 { Nodes18(); } else if i < 160 { Nodes19(); } else if i < 168 { Nodes20(); } else
    if i < 176 { Nodes21(); } else if i < 184 { Nodes22(); } else if i < 192 { Nodes23(); } else
    if i < 200 { Nodes24(); } else if i < 208 { Nodes25(); } else if i < 216 { Nodes26(); } else
    if i < 224 { Nodes27(); } else if i < 232 { Nodes28(); } else if i < 240 { Nodes29(); } else
    if i < 248 { Nodes30(); } else if i < 256 { Nodes31(); } else if i < 264 { Nodes32(); } else
    if i < 272 { Nodes33(); } else if i < 280 { Nodes34(); } else if i < 288 { Nodes35(); } else
    if i < 296 { Nodes36(); } else if i < 304 { Nodes37(); } else if i < 312 { Nodes38(); } else
    if i < 320 { Nodes39(); } else if i < 328 { Nodes40(); } else if i < 336 { Nodes41(); } else
    if i < 344 { Nodes42(); } else if i < 352 { Nodes43(); } else if i < 360 { Nodes44(); } else
    if i < 368 { Nodes45(); } else if i < 376 { Nodes46(); } else if i < 384 { Nodes47(); } else
    if i < 392 { Nodes48(); } else if i < 400 { Nodes49(); } else if i < 408 { Nodes50(); } else
    if i < 416 { Nodes51(); } else if i < 424 { Nodes52(); } else if i < 432 { Nodes53(); } else
    if i < 440 { Nodes54(); } else if i < 448 { Nodes55(); } else if i < 456 { Nodes56(); } else
    if i < 464 { Nodes57(); } else if i < 472 { Nodes58(); } else if i < 480 { Nodes59(); } else
    if i < 488 { Nodes60(); } else if i < 496 { Nodes61(); } else if i < 504 { Nodes62(); } else
    { Nodes63(); }
  }

  lemma AllBytes(c: nat)
    requires c < 256
    ensures ByteChecks(c)
  {
    if c < 8 { Bytes0(); } else if c < 16 { Bytes1(); } else if c < 24 { Bytes2(); } else
    if c < 32 { Bytes3(); } else if c < 40 { Bytes4(); } else if c < 48 { Bytes5(); } else
    if c < 56 { Bytes6(); } else if c < 64 { Bytes7(); } else if c < 72 { Bytes8(); } else
    if c < 80 { Bytes9(); } else if c < 88 { Bytes10(); } else if c < 96 { Bytes11(); } else
    if c < 104 { Bytes12(); } else if c < 112 { Bytes13(); } else if c < 120 { Bytes14(); } else
    if c < 128 { Bytes15(); } else if c < 136 { Bytes16(); } else if c < 144 { Bytes17(); } else
    if c < 152 { Bytes18(); } else if c < 160 { Bytes19(); } else if c < 168 { Bytes20(); } else
    if c < 176 { Bytes21(); } else if c < 184 { Bytes22(); } else if c < 192 { Bytes23(); } else
    if c < 200 { Bytes24(); } else if c < 208 { Bytes25(); } else if c < 216 { Bytes26(); } else
    if c < 224 { Bytes27(); } else if c < 232 { Bytes28(); } else if c < 240 { Bytes29(); } else
    if c < 248 { Bytes30(); } else { Bytes31(); }
  }
}
