/** Every named key except LineFeed survives the converter's round trip: the text it is
    written as reads back as the same key. The declared names are told apart, ignoring case, by
    a short fingerprint (their length and five upper-cased characters), so that a text equal to
    one name ignoring case equals no name of another value, and no switch spelling of another
    key. */
module KeyNames {
  import opened Wrappers
  import opened Text
  import opened KeyConverter

  /** The code of the upper-cased character at `i`, or of a space outside the text. */
  function Probe(s: string, i: int): int {
    if 0 <= i < |s| then UpperChar(s[i]) as int else ' ' as int
  }

  type Fingerprint = (int, int, int, int, int, int)

  /** The length and the upper-cased characters at positions 0, 1, 3, 8 and at the end. */
  function FingerprintOf(s: string): Fingerprint {
    (|s|, Probe(s, 0), Probe(s, 1), Probe(s, 3), Probe(s, 8), Probe(s, |s| - 1))
  }

  /** The value whose name or switch spelling has fingerprint `f`, for the fingerprints of the
      declared names and of the spellings (CodedFrom..., SpellingsCoded); no two values share
      one. */
  ghost function CodeOf(f: Fingerprint): Option<int> {

    match f.5
      case 48 => (match f.2
        case 48 => Some(34)
        case 49 => Some(99)
        case 50 => Some(109)
        case 85 => Some(74)
        case _ => None)
      case 49 => (match f.1
        case 65 => Some(147)
        case 68 => Some(35)
        case 70 => (match f.0
          case 2 => Some(90)
          case 3 => (match f.2
            case 49 => Some(100)
            case 50 => Some(110)
            case _ => None)
          case _ => None)
        case 76 => Some(138)
        case 78 => Some(75)
        case 79 => Some(140)
        case 80 => Some(170)
        case _ => None)
      case 50 => (match f.0
        case 2 => (match f.1
          case 68 => Some(36)
          case 70 => Some(91)
          case _ => None)
        case 3 => (match f.2
          case 49 => Some(101)
          case 50 => Some(111)
          case _ => None)
        case 4 => Some(145)
        case 6 => (match f.1
          case 65 => Some(148)
          case 79 => Some(154)
          case _ => None)
        case 7 => Some(76)
        case 18 => Some(139)
        case _ => None)
      case 51 => (match f.2
        case 49 => Some(102)
        case 50 => Some(112)
        case 51 => (match f.1
          case 68 => Some(37)
          case 70 => Some(92)
          case _ => None)
        case 69 => Some(146)
        case 85 => Some(77)
        case _ => None)
      case 52 => (match f.2
        case 49 => Some(103)
        case 50 => Some(113)
        case 52 => (match f.1
          case 68 => Some(38)
          case 70 => Some(93)
          case _ => None)
        case 69 => Some(149)
        case 85 => Some(78)
        case _ => None)
      case 53 => (match f.0
        case 2 => (match f.1
          case 68 => Some(39)
          case 70 => Some(94)
          case _ => None)
        case 3 => Some(104)
        case 4 => Some(150)
        case 7 => Some(79)
        case _ => None)
      case 54 => (match f.0
        case 2 => (match f.1
          case 68 => Some(40)
          case 70 => Some(95)
          case _ => None)
        case 3 => Some(105)
        case 4 => Some(151)
        case 7 => Some(80)
        case _ => None)
      case 55 => (match f.0
        case 2 => (match f.1
          case 68 => Some(41)
          case 70 => Some(96)
          case _ => None)
        case 3 => Some(106)
        case 4 => Some(152)
        case 7 => Some(81)
        case _ => None)
      case 56 => (match f.0
        case 2 => (match f.1
          case 68 => Some(42)
          case 70 => Some(97)
          case _ => None)
        case 3 => Some(107)
        case 4 => Some(153)
        case 7 => Some(82)
        case _ => None)
      case 57 => (match f.0
        case 2 => (match f.1
          case 68 => Some(43)
          case 70 => Some(98)
          case _ => None)
        case 3 => Some(108)
        case 7 => Some(83)
        case _ => None)
      case 65 => (match f.3
        case 32 => Some(44)
        case 67 => Some(142)
        case 69 => Some(137)
        case 72 => Some(159)
        case 75 => Some(158)
        case 77 => Some(142)
        case _ => None)
      case 66 => (match f.0
        case 1 => Some(45)
        case 3 => Some(3)
        case 10 => Some(162)
        case _ => None)
      case 67 => (match f.0
        case 1 => Some(46)
        case 3 => Some(13)
        case 5 => Some(30)
        case 15 => Some(157)
        case _ => None)
      case 68 => (match f.0
        case 1 => Some(47)
        case 3 => (match f.1
          case 65 => Some(85)
          case 69 => Some(21)
          case _ => None)
        case 6 => Some(144)
        case 8 => Some(4)
        case 9 => Some(144)
        case 12 => Some(155)
        case 14 => Some(123)
        case 17 => Some(172)
        case _ => None)
      case 69 => (match f.1
        case 66 => (match f.0
          case 9 => Some(2)
          case 11 => Some(128)
          case _ => None)
        case 68 => (match f.4
          case 32 => (match f.2
            case 69 => Some(32)
            case 73 => Some(89)
            case _ => None)
          case 68 => Some(170)
          case 73 => Some(165)
          case 87 => Some(164)
          case _ => None)
        case 69 => (match f.0
          case 1 => Some(48)
          case 6 => Some(13)
          case 7 => Some(29)
          case _ => None)
        case 70 => Some(11)
        case 72 => (match f.0
          case 4 => Some(22)
          case 9 => Some(12)
          case 10 => Some(9)
          case _ => None)
        case 73 => Some(17)
        case 74 => Some(10)
        case 75 => (match f.0
          case 8 => Some(9)
          case 9 => Some(12)
          case _ => None)
        case 77 => Some(135)
        case 78 => (match f.0
          case 4 => Some(0)
          case 6 => Some(169)
          case _ => None)
        case 79 => (match f.0
          case 7 => Some(150)
          case 8 => Some(146)
          case _ => None)
        case 80 => (match f.0
          case 4 => Some(150)
          case 5 => Some(7)
          case _ => None)
        case 83 => Some(18)
        case 84 => Some(146)
        case 86 => Some(129)
        case _ => None)
      case 70 => (match f.0
        case 1 => Some(49)
        case 8 => Some(166)
        case _ => None)
      case 71 => (match f.0
        case 1 => Some(50)
        case 14 => Some(166)
        case 18 => Some(169)
        case _ => None)
      case 72 => (match f.0
        case 1 => Some(51)
        case 6 => Some(158)
        case 9 => (match f.1
          case 66 => Some(154)
          case 79 => Some(158)
          case _ => None)
        case 12 => Some(154)
        case 13 => Some(126)
        case 14 => Some(124)
        case _ => None)
      case 73 => Some(52)
      case 74 => Some(53)
      case 75 => (match f.0
        case 1 => Some(54)
        case 4 => Some(2)
        case 5 => Some(1)
        case 7 => Some(114)
        case 8 => Some(8)
        case 11 => Some(122)
        case 14 => Some(132)
        case 18 => Some(133)
        case _ => None)
      case 76 => (match f.0
        case 1 => Some(55)
        case 3 => Some(32)
        case 4 => Some(118)
        case 5 => (match f.1
          case 67 => Some(164)
          case 69 => Some(165)
          case _ => None)
        case 6 => (match f.1
          case 67 => Some(1)
          case 83 => Some(115)
          case _ => None)
        case 7 => (match f.2
          case 65 => Some(8)
          case 69 => Some(88)
          case 79 => Some(118)
          case _ => None)
        case 8 => Some(118)
        case 9 => Some(119)
        case 10 => Some(136)
        case _ => None)
      case 77 => (match f.0
        case 1 => Some(56)
        case 4 => Some(168)
        case 6 => Some(156)
        case _ => None)
      case 78 => (match f.2
        case 32 => Some(57)
        case 65 => Some(20)
        case 66 => (match f.0
          case 8 => Some(162)
          case 10 => Some(163)
          case _ => None)
        case 69 => (match f.0
          case 6 => Some(6)
          case 7 => Some(157)
          case 9 => Some(140)
          case 11 => Some(145)
          case 12 => Some(140)
          case _ => None)
        case 71 => Some(20)
        case 73 => Some(70)
        case 79 => (match f.0
          case 4 => Some(26)
          case 10 => Some(130)
          case _ => None)
        case 80 => Some(72)
        case 82 => Some(30)
        case 84 => Some(163)
        case 85 => Some(145)
        case 87 => (match f.1
          case 76 => Some(70)
          case 82 => Some(71)
          case _ => None)
        case _ => None)
      case 79 => (match f.0
        case 1 => Some(58)
        case 7 => Some(160)
        case _ => None)
      case 80 => (match f.2
        case 32 => Some(59)
        case 65 => Some(19)
        case 69 => (match f.0
          case 4 => Some(33)
          case 9 => Some(134)
          case _ => None)
        case 71 => Some(19)
        case 75 => Some(2)
        case 76 => Some(73)
        case 79 => Some(131)
        case 80 => Some(24)
        case 82 => Some(125)
        case _ => None)
      case 81 => Some(60)
      case 82 => (match f.1
        case 67 => Some(5)
        case 68 => (match f.3
          case 68 => Some(161)
          case 83 => Some(160)
          case _ => None)
        case 69 => Some(6)
        case 79 => Some(171)
        case 80 => Some(19)
        case 82 => Some(61)
        case 83 => Some(86)
        case _ => None)
      case 83 => (match f.0
        case 1 => Some(62)
        case 2 => Some(2)
        case 3 => Some(31)
        case 4 => (match f.1
          case 65 => Some(72)
          case 80 => Some(141)
          case _ => None)
        case 5 => Some(143)
        case 6 => Some(152)
        case 7 => (match f.1
          case 79 => Some(141)
          case 87 => Some(70)
          case _ => None)
        case 8 => Some(143)
        case 9 => Some(152)
        case 11 => Some(70)
        case 12 => (match f.1
          case 79 => Some(149)
          case 82 => Some(71)
          case _ => None)
        case 13 => Some(151)
        case 15 => Some(149)
        case 16 => (match f.1
          case 66 => Some(127)
          case 79 => Some(151)
          case _ => None)
        case _ => None)
      case 84 => (match f.0
        case 1 => Some(63)
        case 3 => Some(120)
        case 4 => (match f.1
          case 76 => Some(23)
          case 78 => Some(20)
          case _ => None)
        case 5 => (match f.1
          case 80 => Some(28)
          case 82 => Some(25)
          case 83 => Some(116)
          case _ => None)
        case 6 => (match f.1
          case 73 => Some(31)
          case 83 => Some(27)
          case _ => None)
        case 7 => Some(120)
        case 8 => (match f.2
          case 73 => Some(121)
          case 78 => Some(30)
          case 85 => Some(87)
          case _ => None)
        case 9 => (match f.1
          case 73 => Some(16)
          case 76 => Some(116)
          case _ => None)
        case 10 => (match f.1
          case 73 => Some(14)
          case 82 => Some(117)
          case _ => None)
        case 12 => Some(167)
        case 13 => Some(15)
        case 14 => Some(168)
        case _ => None)
      case 85 => Some(64)
      case 86 => Some(65)
      case 87 => (match f.0
        case 1 => Some(66)
        case 7 => Some(161)
        case _ => None)
      case 88 => Some(67)
      case 89 => (match f.0
        case 1 => Some(68)
        case 4 => Some(167)
        case 7 => Some(159)
        case 8 => Some(84)
        case _ => None)
      case 90 => Some(69)
      case _ => None
  }


  /** The facts the round trip needs about the names of `v`: each has the fingerprint of `v`,
      there is at most one alias, and the first name starts with a letter, ends without white
      space and is longer than one character unless `v` is a letter key. */
  ghost predicate Coded(v: DeclaredKey) {
    var names := NamesOf(v);
    var f := FingerprintOf(names.0);
    CodeOf(f) == Some(v as int) && 'A' as int <= f.1 <= 'Z' as int && '0' as int <= f.5 <= 'Z' as int
    && (f.0 >= 2 || IsLetterKey(v))
    && |names.1| <= 1 && (|names.1| == 1 ==> CodeOf(FingerprintOf(names.1[0])) == Some(v as int))
  }

  lemma CodedFrom0(v: DeclaredKey)
    requires 0 <= v < 3
    ensures Coded(v)
  {
  }

  lemma CodedFrom3(v: DeclaredKey)
    requires 3 <= v < 5
    ensures Coded(v)
  {
  }

  lemma CodedFrom5(v: DeclaredKey)
    requires 5 <= v < 7
    ensures Coded(v)
  {
  }

  lemma CodedFrom7(v: DeclaredKey)
    requires v == 7
    ensures Coded(v)
  {
  }

  lemma CodedFrom8(v: DeclaredKey)
    requires v == 8
    ensures Coded(v)
  {
  }

  lemma CodedFrom9(v: DeclaredKey)
    requires v == 9
    ensures Coded(v)
  {
  }

  lemma CodedFrom10(v: DeclaredKey)
    requires v == 10
    ensures Coded(v)
  {
  }

  lemma CodedFrom11(v: DeclaredKey)
    requires 11 <= v < 13
    ensures Coded(v)
  {
  }

  lemma CodedFrom13(v: DeclaredKey)
    requires v == 13
    ensures Coded(v)
  {
  }

  lemma CodedFrom14(v: DeclaredKey)
    requires v == 14
    ensures Coded(v)
  {
  }

  lemma CodedFrom15(v: DeclaredKey)
    requires v == 15
    ensures Coded(v)
  {
  }

  lemma CodedFrom16(v: DeclaredKey)
    requires v == 16
    ensures Coded(v)
  {
  }

  lemma CodedFrom17(v: DeclaredKey)
    requires v == 17
    ensures Coded(v)
  {
  }

  lemma CodedFrom18(v: DeclaredKey)
    requires v == 18
    ensures Coded(v)
  {
  }

  lemma CodedFrom19(v: DeclaredKey)
    requires v == 19
    ensures Coded(v)
  {
  }

  lemma CodedFrom20(v: DeclaredKey)
    requires 20 <= v < 22
    ensures Coded(v)
  {
  }

  lemma CodedFrom22(v: DeclaredKey)
    requires 22 <= v < 24
    ensures Coded(v)
  {
  }

  lemma CodedFrom24(v: DeclaredKey)
    requires 24 <= v < 26
    ensures Coded(v)
  {
  }

  lemma CodedFrom26(v: DeclaredKey)
    requires v == 26
    ensures Coded(v)
  {
  }

  lemma CodedFrom27(v: DeclaredKey)
    requires v == 27
    ensures Coded(v)
  {
  }

  lemma CodedFrom28(v: DeclaredKey)
    requires 28 <= v < 30
    ensures Coded(v)
  {
  }

  lemma CodedFrom30(v: DeclaredKey)
    requires v == 30
    ensures Coded(v)
  {
  }

  lemma CodedFrom31(v: DeclaredKey)
    requires v == 31
    ensures Coded(v)
  {
  }

  lemma CodedFrom32(v: DeclaredKey)
    requires v == 32
    ensures Coded(v)
  {
  }

  lemma CodedFrom33(v: DeclaredKey)
    requires 33 <= v < 35
    ensures Coded(v)
  {
  }

  lemma CodedFrom35(v: DeclaredKey)
    requires 35 <= v < 38
    ensures Coded(v)
  {
  }

  lemma CodedFrom38(v: DeclaredKey)
    requires 38 <= v < 41
    ensures Coded(v)
  {
  }

  lemma CodedFrom41(v: DeclaredKey)
    requires 41 <= v < 44
    ensures Coded(v)
  {
  }

  lemma CodedFrom44(v: DeclaredKey)
    requires 44 <= v < 48
    ensures Coded(v)
  {
  }

  lemma CodedFrom48(v: DeclaredKey)
    requires 48 <= v < 52
    ensures Coded(v)
  {
  }

  lemma CodedFrom52(v: DeclaredKey)
    requires 52 <= v < 55
    ensures Coded(v)
  {
  }

  lemma CodedFrom55(v: DeclaredKey)
    requires 55 <= v < 58
    ensures Coded(v)
  {
  }

  lemma CodedFrom58(v: DeclaredKey)
    requires 58 <= v < 61
    ensures Coded(v)
  {
  }

  lemma CodedFrom61(v: DeclaredKey)
    requires 61 <= v < 64
    ensures Coded(v)
  {
  }

  lemma CodedFrom64(v: DeclaredKey)
    requires 64 <= v < 67
    ensures Coded(v)
  {
  }

  lemma CodedFrom67(v: DeclaredKey)
    requires 67 <= v < 70
    ensures Coded(v)
  {
  }

  lemma CodedFrom70(v: DeclaredKey)
    requires 70 <= v < 72
    ensures Coded(v)
  {
  }

  lemma CodedFrom72(v: DeclaredKey)
    requires 72 <= v < 74
    ensures Coded(v)
  {
  }

  lemma CodedFrom74(v: DeclaredKey)
    requires 74 <= v < 77
    ensures Coded(v)
  {
  }

  lemma CodedFrom77(v: DeclaredKey)
    requires 77 <= v < 79
    ensures Coded(v)
  {
  }

  lemma CodedFrom79(v: DeclaredKey)
    requires 79 <= v < 81
    ensures Coded(v)
  {
  }

  lemma CodedFrom81(v: DeclaredKey)
    requires 81 <= v < 83
    ensures Coded(v)
  {
  }

  lemma CodedFrom83(v: DeclaredKey)
    requires 83 <= v < 85
    ensures Coded(v)
  {
  }

  lemma CodedFrom85(v: DeclaredKey)
    requires 85 <= v < 87
    ensures Coded(v)
  {
  }

  lemma CodedFrom87(v: DeclaredKey)
    requires v == 87
    ensures Coded(v)
  {
  }

  lemma CodedFrom88(v: DeclaredKey)
    requires v == 88
    ensures Coded(v)
  {
  }

  lemma CodedFrom89(v: DeclaredKey)
    requires v == 89
    ensures Coded(v)
  {
  }

  lemma CodedFrom90(v: DeclaredKey)
    requires 90 <= v < 92
    ensures Coded(v)
  {
  }

  lemma CodedFrom92(v: DeclaredKey)
    requires 92 <= v < 95
    ensures Coded(v)
  {
  }

  lemma CodedFrom95(v: DeclaredKey)
    requires 95 <= v < 98
    ensures Coded(v)
  {
  }

  lemma CodedFrom98(v: DeclaredKey)
    requires 98 <= v < 101
    ensures Coded(v)
  {
  }

  lemma CodedFrom101(v: DeclaredKey)
    requires 101 <= v < 105
    ensures Coded(v)
  {
  }

  lemma CodedFrom105(v: DeclaredKey)
    requires 105 <= v < 109
    ensures Coded(v)
  {
  }

  lemma CodedFrom109(v: DeclaredKey)
    requires 109 <= v < 112
    ensures Coded(v)
  {
  }

  lemma CodedFrom112(v: DeclaredKey)
    requires 112 <= v < 114
    ensures Coded(v)
  {
  }

  lemma CodedFrom114(v: DeclaredKey)
    requires v == 114
    ensures Coded(v)
  {
  }

  lemma CodedFrom115(v: DeclaredKey)
    requires v == 115
    ensures Coded(v)
  {
  }

  lemma CodedFrom116(v: DeclaredKey)
    requires v == 116
    ensures Coded(v)
  {
  }

  lemma CodedFrom117(v: DeclaredKey)
    requires v == 117
    ensures Coded(v)
  {
  }

  lemma CodedFrom118(v: DeclaredKey)
    requires 118 <= v < 120
    ensures Coded(v)
  {
  }

  lemma CodedFrom120(v: DeclaredKey)
    requires 120 <= v < 122
    ensures Coded(v)
  {
  }

  lemma CodedFrom122(v: DeclaredKey)
    requires 122 <= v < 124
    ensures Coded(v)
  {
  }

  lemma CodedFrom124(v: DeclaredKey)
    requires v == 124
    ensures Coded(v)
  {
  }

  lemma CodedFrom125(v: DeclaredKey)
    requires v == 125
    ensures Coded(v)
  {
  }

  lemma CodedFrom126(v: DeclaredKey)
    requires v == 126
    ensures Coded(v)
  {
  }

  lemma CodedFrom127(v: DeclaredKey)
    requires v == 127
    ensures Coded(v)
  {
  }

  lemma CodedFrom128(v: DeclaredKey)
    requires v == 128
    ensures Coded(v)
  {
  }

  lemma CodedFrom129(v: DeclaredKey)
    requires v == 129
    ensures Coded(v)
  {
  }

  lemma CodedFrom130(v: DeclaredKey)
    requires v == 130
    ensures Coded(v)
  {
  }

  lemma CodedFrom131(v: DeclaredKey)
    requires v == 131
    ensures Coded(v)
  {
  }

  lemma CodedFrom132(v: DeclaredKey)
    requires v == 132
    ensures Coded(v)
  {
  }

  lemma CodedFrom133(v: DeclaredKey)
    requires v == 133
    ensures Coded(v)
  {
  }

  lemma CodedFrom134(v: DeclaredKey)
    requires v == 134
    ensures Coded(v)
  {
  }

  lemma CodedFrom135(v: DeclaredKey)
    requires v == 135
    ensures Coded(v)
  {
  }

  lemma CodedFrom136(v: DeclaredKey)
    requires v == 136
    ensures Coded(v)
  {
  }

  lemma CodedFrom137(v: DeclaredKey)
    requires v == 137
    ensures Coded(v)
  {
  }

  lemma CodedFrom138(v: DeclaredKey)
    requires 138 <= v < 140
    ensures Coded(v)
  {
  }

  lemma CodedFrom140(v: DeclaredKey)
    requires v == 140
    ensures Coded(v)
  {
  }

  lemma CodedFrom141(v: DeclaredKey)
    requires 141 <= v < 143
    ensures Coded(v)
  {
  }

  lemma CodedFrom143(v: DeclaredKey)
    requires 143 <= v < 145
    ensures Coded(v)
  {
  }

  lemma CodedFrom145(v: DeclaredKey)
    requires v == 145
    ensures Coded(v)
  {
  }

  lemma CodedFrom146(v: DeclaredKey)
    requires 146 <= v < 148
    ensures Coded(v)
  {
  }

  lemma CodedFrom148(v: DeclaredKey)
    requires v == 148
    ensures Coded(v)
  {
  }

  lemma CodedFrom149(v: DeclaredKey)
    requires v == 149
    ensures Coded(v)
  {
  }

  lemma CodedFrom150(v: DeclaredKey)
    requires v == 150
    ensures Coded(v)
  {
  }

  lemma CodedFrom151(v: DeclaredKey)
    requires v == 151
    ensures Coded(v)
  {
  }

  lemma CodedFrom152(v: DeclaredKey)
    requires v == 152
    ensures Coded(v)
  {
  }

  lemma CodedFrom153(v: DeclaredKey)
    requires v == 153
    ensures Coded(v)
  {
  }

  lemma CodedFrom154(v: DeclaredKey)
    requires v == 154
    ensures Coded(v)
  {
  }

  lemma CodedFrom155(v: DeclaredKey)
    requires v == 155
    ensures Coded(v)
  {
  }

  lemma CodedFrom156(v: DeclaredKey)
    requires v == 156
    ensures Coded(v)
  {
  }

  lemma CodedFrom157(v: DeclaredKey)
    requires v == 157
    ensures Coded(v)
  {
  }

  lemma CodedFrom158(v: DeclaredKey)
    requires v == 158
    ensures Coded(v)
  {
  }

  lemma CodedFrom159(v: DeclaredKey)
    requires v == 159
    ensures Coded(v)
  {
  }

  lemma CodedFrom160(v: DeclaredKey)
    requires v == 160
    ensures Coded(v)
  {
  }

  lemma CodedFrom161(v: DeclaredKey)
    requires v == 161
    ensures Coded(v)
  {
  }

  lemma CodedFrom162(v: DeclaredKey)
    requires v == 162
    ensures Coded(v)
  {
  }

  lemma CodedFrom163(v: DeclaredKey)
    requires v == 163
    ensures Coded(v)
  {
  }

  lemma CodedFrom164(v: DeclaredKey)
    requires v == 164
    ensures Coded(v)
  {
  }

  lemma CodedFrom165(v: DeclaredKey)
    requires v == 165
    ensures Coded(v)
  {
  }

  lemma CodedFrom166(v: DeclaredKey)
    requires v == 166
    ensures Coded(v)
  {
  }

  lemma CodedFrom167(v: DeclaredKey)
    requires v == 167
    ensures Coded(v)
  {
  }

  lemma CodedFrom168(v: DeclaredKey)
    requires v == 168
    ensures Coded(v)
  {
  }

  lemma CodedFrom169(v: DeclaredKey)
    requires v == 169
    ensures Coded(v)
  {
  }

  lemma CodedFrom170(v: DeclaredKey)
    requires v == 170
    ensures Coded(v)
  {
  }

  lemma CodedFrom171(v: DeclaredKey)
    requires v == 171
    ensures Coded(v)
  {
  }

  lemma CodedFrom172(v: DeclaredKey)
    requires v == 172
    ensures Coded(v)
  {
  }

  /** Every named value satisfies Coded. */
  lemma AllCoded(v: DeclaredKey)
    ensures Coded(v)
  {
    assert IsDeclared(v);
    if v < 3 {
      CodedFrom0(v);
    } else if v < 5 {
      CodedFrom3(v);
    } else if v < 7 {
      CodedFrom5(v);
    } else if v < 8 {
      CodedFrom7(v);
    } else if v < 9 {
      CodedFrom8(v);
    } else if v < 10 {
      CodedFrom9(v);
    } else if v < 11 {
      CodedFrom10(v);
    } else if v < 13 {
      CodedFrom11(v);
    } else if v < 14 {
      CodedFrom13(v);
    } else if v < 15 {
      CodedFrom14(v);
    } else if v < 16 {
      CodedFrom15(v);
    } else if v < 17 {
      CodedFrom16(v);
    } else if v < 18 {
      CodedFrom17(v);
    } else if v < 19 {
      CodedFrom18(v);
    } else if v < 20 {
      CodedFrom19(v);
    } else if v < 22 {
      CodedFrom20(v);
    } else if v < 24 {
      CodedFrom22(v);
    } else if v < 26 {
      CodedFrom24(v);
    } else if v < 27 {
      CodedFrom26(v);
    } else if v < 28 {
      CodedFrom27(v);
    } else if v < 30 {
      CodedFrom28(v);
    } else if v < 31 {
      CodedFrom30(v);
    } else if v < 32 {
      CodedFrom31(v);
    } else if v < 33 {
      CodedFrom32(v);
    } else if v < 35 {
      CodedFrom33(v);
    } else if v < 38 {
      CodedFrom35(v);
    } else if v < 41 {
      CodedFrom38(v);
    } else if v < 44 {
      CodedFrom41(v);
    } else if v < 48 {
      CodedFrom44(v);
    } else if v < 52 {
      CodedFrom48(v);
    } else if v < 55 {
      CodedFrom52(v);
    } else if v < 58 {
      CodedFrom55(v);
    } else if v < 61 {
      CodedFrom58(v);
    } else if v < 64 {
      CodedFrom61(v);
    } else if v < 67 {
      CodedFrom64(v);
    } else if v < 70 {
      CodedFrom67(v);
    } else if v < 72 {
      CodedFrom70(v);
    } else if v < 74 {
      CodedFrom72(v);
    } else if v < 77 {
      CodedFrom74(v);
    } else if v < 79 {
      CodedFrom77(v);
    } else if v < 81 {
      CodedFrom79(v);
    } else if v < 83 {
      CodedFrom81(v);
    } else if v < 85 {
      CodedFrom83(v);
    } else if v < 87 {
      CodedFrom85(v);
    } else if v < 88 {
      CodedFrom87(v);
    } else if v < 89 {
      CodedFrom88(v);
    } else if v < 90 {
      CodedFrom89(v);
    } else if v < 92 {
      CodedFrom90(v);
    } else if v < 95 {
      CodedFrom92(v);
    } else if v < 98 {
      CodedFrom95(v);
    } else if v < 101 {
      CodedFrom98(v);
    } else if v < 105 {
      CodedFrom101(v);
    } else if v < 109 {
      CodedFrom105(v);
    } else if v < 112 {
      CodedFrom109(v);
    } else if v < 114 {
      CodedFrom112(v);
    } else if v < 115 {
      CodedFrom114(v);
    } else if v < 116 {
      CodedFrom115(v);
    } else if v < 117 {
      CodedFrom116(v);
    } else if v < 118 {
      CodedFrom117(v);
    } else if v < 120 {
      CodedFrom118(v);
    } else if v < 122 {
      CodedFrom120(v);
    } else if v < 124 {
      CodedFrom122(v);
    } else if v < 125 {
      CodedFrom124(v);
    } else if v < 126 {
      CodedFrom125(v);
    } else if v < 127 {
      CodedFrom126(v);
    } else if v < 128 {
      CodedFrom127(v);
    } else if v < 129 {
      CodedFrom128(v);
    } else if v < 130 {
      CodedFrom129(v);
    } else if v < 131 {
      CodedFrom130(v);
    } else if v < 132 {
      CodedFrom131(v);
    } else if v < 133 {
      CodedFrom132(v);
    } else if v < 134 {
      CodedFrom133(v);
    } else if v < 135 {
      CodedFrom134(v);
    } else if v < 136 {
      CodedFrom135(v);
    } else if v < 137 {
      CodedFrom136(v);
    } else if v < 138 {
      CodedFrom137(v);
    } else if v < 140 {
      CodedFrom138(v);
    } else if v < 141 {
      CodedFrom140(v);
    } else if v < 143 {
      CodedFrom141(v);
    } else if v < 145 {
      CodedFrom143(v);
    } else if v < 146 {
      CodedFrom145(v);
    } else if v < 148 {
      CodedFrom146(v);
    } else if v < 149 {
      CodedFrom148(v);
    } else if v < 150 {
      CodedFrom149(v);
    } else if v < 151 {
      CodedFrom150(v);
    } else if v < 152 {
      CodedFrom151(v);
    } else if v < 153 {
      CodedFrom152(v);
    } else if v < 154 {
      CodedFrom153(v);
    } else if v < 155 {
      CodedFrom154(v);
    } else if v < 156 {
      CodedFrom155(v);
    } else if v < 157 {
      CodedFrom156(v);
    } else if v < 158 {
      CodedFrom157(v);
    } else if v < 159 {
      CodedFrom158(v);
    } else if v < 160 {
      CodedFrom159(v);
    } else if v < 161 {
      CodedFrom160(v);
    } else if v < 162 {
      CodedFrom161(v);
    } else if v < 163 {
      CodedFrom162(v);
    } else if v < 164 {
      CodedFrom163(v);
    } else if v < 165 {
      CodedFrom164(v);
    } else if v < 166 {
      CodedFrom165(v);
    } else if v < 167 {
      CodedFrom166(v);
    } else if v < 168 {
      CodedFrom167(v);
    } else if v < 169 {
      CodedFrom168(v);
    } else if v < 170 {
      CodedFrom169(v);
    } else if v < 171 {
      CodedFrom170(v);
    } else if v < 172 {
      CodedFrom171(v);
    } else {
      CodedFrom172(v);
    }
  }
  /** Entries `lo` to `hi` of a switch table have the fingerprints of the keys they stand for. */
  ghost predicate SpellingsCodedIn(table: seq<(Spelling, DeclaredKey)>, lo: nat, hi: nat) {
    forall i :: lo <= i < hi && i < |table| ==> CodeOf(FingerprintOf(table[i].0)) == Some(table[i].1 as int)
  }

  /** Every spelling of a switch table has the fingerprint of the key it stands for. */
  ghost predicate SpellingsCoded(table: seq<(Spelling, DeclaredKey)>) {
    SpellingsCodedIn(table, 0, |table|)
  }

  /** Two adjacent coded stretches of a table make one. */
  lemma CodedInJoin(table: seq<(Spelling, DeclaredKey)>, lo: nat, mid: nat, hi: nat)
    requires SpellingsCodedIn(table, lo, mid) && SpellingsCodedIn(table, mid, hi)
    ensures SpellingsCodedIn(table, lo, hi)
  {
  }

  lemma NavigationCodedIn0()
    ensures SpellingsCodedIn(NavigationSpellings, 0, 3)
  {
  }

  lemma NavigationCodedIn3()
    ensures SpellingsCodedIn(NavigationSpellings, 3, 6)
  {
  }

  lemma NavigationCodedIn6()
    ensures SpellingsCodedIn(NavigationSpellings, 6, 7)
  {
  }

  lemma NavigationCoded()
    ensures SpellingsCoded(NavigationSpellings)
  {
    NavigationCodedIn0();
    NavigationCodedIn3();
    NavigationCodedIn6();
    CodedInJoin(NavigationSpellings, 0, 3, 6);
    CodedInJoin(NavigationSpellings, 0, 6, 7);
  }

  lemma SystemCodedIn0()
    ensures SpellingsCodedIn(SystemSpellings, 0, 3)
  {
  }

  lemma SystemCodedIn3()
    ensures SpellingsCodedIn(SystemSpellings, 3, 6)
  {
  }

  lemma SystemCoded()
    ensures SpellingsCoded(SystemSpellings)
  {
    SystemCodedIn0();
    SystemCodedIn3();
    CodedInJoin(SystemSpellings, 0, 3, 6);
  }

  lemma BackCodedIn0()
    ensures SpellingsCodedIn(BackSpellings, 0, 3)
  {
  }

  lemma BackCodedIn3()
    ensures SpellingsCodedIn(BackSpellings, 3, 4)
  {
  }

  lemma BackCoded()
    ensures SpellingsCoded(BackSpellings)
  {
    BackCodedIn0();
    BackCodedIn3();
    CodedInJoin(BackSpellings, 0, 3, 4);
  }

  lemma ModifierCodedIn0()
    ensures SpellingsCodedIn(ModifierSpellings, 0, 3)
  {
  }

  lemma ModifierCodedIn3()
    ensures SpellingsCodedIn(ModifierSpellings, 3, 6)
  {
  }

  lemma ModifierCodedIn6()
    ensures SpellingsCodedIn(ModifierSpellings, 6, 9)
  {
  }

  lemma ModifierCodedIn9()
    ensures SpellingsCodedIn(ModifierSpellings, 9, 10)
  {
  }

  lemma ModifierCoded()
    ensures SpellingsCoded(ModifierSpellings)
  {
    ModifierCodedIn0();
    ModifierCodedIn3();
    ModifierCodedIn6();
    ModifierCodedIn9();
    CodedInJoin(ModifierSpellings, 0, 3, 6);
    CodedInJoin(ModifierSpellings, 0, 6, 9);
    CodedInJoin(ModifierSpellings, 0, 9, 10);
  }

  lemma PunctuationCodedIn0()
    ensures SpellingsCodedIn(PunctuationSpellings, 0, 3)
  {
  }

  lemma PunctuationCodedIn3()
    ensures SpellingsCodedIn(PunctuationSpellings, 3, 6)
  {
  }

  lemma PunctuationCodedIn6()
    ensures SpellingsCodedIn(PunctuationSpellings, 6, 9)
  {
  }

  lemma PunctuationCodedIn9()
    ensures SpellingsCodedIn(PunctuationSpellings, 9, 12)
  {
  }

  lemma PunctuationCoded()
    ensures SpellingsCoded(PunctuationSpellings)
  {
    PunctuationCodedIn0();
    PunctuationCodedIn3();
    PunctuationCodedIn6();
    PunctuationCodedIn9();
    CodedInJoin(PunctuationSpellings, 0, 3, 6);
    CodedInJoin(PunctuationSpellings, 0, 6, 9);
    CodedInJoin(PunctuationSpellings, 0, 9, 12);
  }

  lemma TerminalCodedIn0()
    ensures SpellingsCodedIn(TerminalSpellings, 0, 3)
  {
  }

  lemma TerminalCodedIn3()
    ensures SpellingsCodedIn(TerminalSpellings, 3, 6)
  {
  }

  lemma TerminalCodedIn6()
    ensures SpellingsCodedIn(TerminalSpellings, 6, 8)
  {
  }

  lemma TerminalCoded()
    ensures SpellingsCoded(TerminalSpellings)
  {
    TerminalCodedIn0();
    TerminalCodedIn3();
    TerminalCodedIn6();
    CodedInJoin(TerminalSpellings, 0, 3, 6);
    CodedInJoin(TerminalSpellings, 0, 6, 8);
  }

  /** Texts equal ignoring case have the same fingerprint. */
  lemma FingerprintIgnoresCase(a: string, b: string)
    requires EqualsIgnoreCase(a, b)
    ensures FingerprintOf(a) == FingerprintOf(b)
  {
    UpperShape(a);
    UpperShape(b);
    if |a| > 8 {
      assert Upper(a)[8] == Upper(b)[8];
    }
    if |a| > 3 {
      assert Upper(a)[3] == Upper(b)[3];
    }
    if |a| > 1 {
      assert Upper(a)[1] == Upper(b)[1];
    }
    if |a| > 0 {
      assert Upper(a)[0] == Upper(b)[0];
      assert Upper(a)[|a| - 1] == Upper(b)[|a| - 1];
    }
  }

  /** A text equals its upper-cased form ignoring case. */
  lemma UpperEqualsIgnoreCase(s: string)
    ensures EqualsIgnoreCase(s, Upper(s))
  {
    UpperIdempotent(s);
  }

  /** A name list whose names all have the fingerprint of `u` matches a token with the
      fingerprint of `k` only if `u` is `k`. */
  lemma {:induction false} MatchingNameCoded(names: seq<string>, token: string, u: int, k: int)
    requires forall i :: 0 <= i < |names| ==> CodeOf(FingerprintOf(names[i])) == Some(u)
    requires CodeOf(FingerprintOf(token)) == Some(k)
    requires AnyNameMatches(names, token)
    ensures u == k
  {
    if EqualsIgnoreCase(names[0], token) {
      FingerprintIgnoresCase(names[0], token);
    } else {
      MatchingNameCoded(names[1..], token, u, k);
    }
  }

  /** The fingerprint facts of Coded, for the list of all the names. */
  lemma NamesCoded(first: string, aliases: seq<string>, u: int)
    requires CodeOf(FingerprintOf(first)) == Some(u)
    requires |aliases| <= 1 && (|aliases| == 1 ==> CodeOf(FingerprintOf(aliases[0])) == Some(u))
    ensures forall i :: 0 <= i < |[first] + aliases| ==> CodeOf(FingerprintOf(([first] + aliases)[i])) == Some(u)
  {
    forall i | 0 <= i < |[first] + aliases|
      ensures CodeOf(FingerprintOf(([first] + aliases)[i])) == Some(u)
    {
      if i == 0 {
        assert ([first] + aliases)[i] == first;
      } else {
        assert ([first] + aliases)[i] == aliases[0];
      }
    }
  }

  /** A token with the fingerprint of `k` is a name of no other value. */
  lemma NamedOnlyBy(u: DeclaredKey, token: string, k: DeclaredKey)
    requires CodeOf(FingerprintOf(token)) == Some(k as int)
    requires NamedAs(u, token)
    ensures u == k
  {
    AllCoded(u);
    NamesCoded(NamesOf(u).0, NamesOf(u).1, u as int);
    MatchingNameCoded(AllNames(u), token, u as int, k as int);
  }

  /** The name search finds `k` for a token that names `k` and has its fingerprint. */
  lemma FindsCodedName(token: string, k: DeclaredKey)
    requires CodeOf(FingerprintOf(token)) == Some(k as int)
    requires NamedAs(k, token)
    ensures FindName(token) == Some(k)
  {
    var p := (v: DeclaredKey) => NamedAs(v, token);
    FirstFromSpec(p, 0);
    var found := FirstFrom(p, 0);
    assert IsDeclared(k) && p(k);
    assert found.Some?;
    assert p(found.value);
    NamedOnlyBy(found.value, token, k);
  }

  /** A switch table whose spellings are coded answers a token with the fingerprint of `k`
      with `k` or not at all. */
  lemma LookupCoded(table: seq<(Spelling, DeclaredKey)>, token: string, k: DeclaredKey)
    requires SpellingsCoded(table)
    requires CodeOf(FingerprintOf(token)) == Some(k as int)
    ensures Lookup(table, token, false) in {None, Some(k)}
  {
    LookupFirst(table, token, false);
    if Lookup(table, token, false).Some? {
      var i :| 0 <= i < |table| && NameMatches(table[i].0, token, false)
        && table[i].1 == Lookup(table, token, false).value;
    }
  }

  /** The switch reads a token with the fingerprint of `k` as `k` or not at all. */
  lemma SwitchCoded(token: string, k: DeclaredKey)
    requires CodeOf(FingerprintOf(token)) == Some(k as int)
    ensures Lookup(Shortcuts, token, false) in {None, Some(k)}
  {
    ShortcutGroups(token);
    NavigationCoded();
    SystemCoded();
    BackCoded();
    ModifierCoded();
    PunctuationCoded();
    TerminalCoded();
    LookupCoded(NavigationSpellings, token, k);
    LookupCoded(SystemSpellings, token, k);
    LookupCoded(BackSpellings, token, k);
    LookupCoded(ModifierSpellings, token, k);
    LookupCoded(PunctuationSpellings, token, k);
    LookupCoded(TerminalSpellings, token, k);
  }

  /** A text starting with a letter is no number. */
  lemma LetterFirstIsNoNumber(s: string)
    requires |s| >= 1 && 'A' <= s[0] <= 'Z'
    ensures !IsNumeric(s)
  {
  }

  /** A named key written by its first name reads back as itself. */
  lemma FirstNameReadsBack(k: DeclaredKey)
    requires !IsLetterKey(k)
    ensures ConvertFrom(NamesOf(k).0) == Success(k)
  {
    var n := NamesOf(k).0;
    var token := Upper(n);
    AllCoded(k);
    UpperEqualsIgnoreCase(n);
    FingerprintIgnoresCase(n, token);
    UpperShape(n);
    LetterFirstIsNoNumber(token);
    SwitchCoded(token, k);
    assert NamedAs(k, token) by {
      assert AllNames(k)[0] == n;
    }
    if Lookup(Shortcuts, token, false) == Some(k) {
      ReadsAsShortcut(n, k);
    } else {
      FindsCodedName(token, k);
      ReadsAsName(n, k);
    }
  }

  /** Every named key except LineFeed is written as a text that reads back as the same key;
      LineFeed is written "Clear" and reads back as Clear (LineFeedReadsAsClear). */
  lemma KeyNameRoundTrip(k: Key)
    requires IsDeclared(k) && k != Key.LineFeed
    ensures ConvertTo(k).Success?
    ensures ConvertFrom(ConvertTo(k).value) == Success(k)
  {
    if k == Key.None {
      BlankIsNone("");
    } else if IsDigitKey(k) {
      DigitKeyRoundTrip(k);
    } else if IsLetterKey(k) {
      LetterKeyRoundTrip(k);
    } else if k == Key.Back {
      BackRoundTrip();
    } else if k == Key.Escape {
      EscapeRoundTrip();
    } else {
      FirstNameReadsBack(k);
    }
  }
}
