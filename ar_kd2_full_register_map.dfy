/*
 * The generated AR-KD2 register-address list: 372 (address, name) rows in
 * ascending address order, and the linear-search name lookup over it.
 *
 * The table is written as two columns read by row index: `AddressAt(i)`
 * holds the addresses in blocks of 24 rows, `NameAt(i)` the names row by
 * row with each row's address in a trailing comment. `FullRegisterMap()`
 * pairs them up into the sequence of rows in table order.
 */
module ArKd2FullRegisterMap {
  import opened Wrappers

  /** A register address is an unsigned 16-bit number. */
  type Address = a: int | 0 <= a < 0x1_0000

  datatype RegisterEntry = RegisterEntry(address: int, name: string)

  /** Number of rows in the table. */
  const RegisterCount := 372

  /** The address column: row `i`'s address, from the block of 24 rows that holds it. */
  function AddressAt(i: int): int
    requires 0 <= i < RegisterCount
  {
    if i < 24 then
      [
        0x0030, 0x0031, 0x007C, 0x007D, 0x007E, 0x007F, 0x0080, 0x0081,
        0x0082, 0x0083, 0x0084, 0x0085, 0x0086, 0x0087, 0x0088, 0x0089,
        0x008A, 0x008B, 0x008C, 0x008D, 0x008E, 0x008F, 0x0090, 0x0091
      ][i]
    else if i < 48 then
      [
        0x0092, 0x0093, 0x0094, 0x0095, 0x0096, 0x0097, 0x0098, 0x0099,
        0x009A, 0x009B, 0x009C, 0x009D, 0x009E, 0x009F, 0x00A0, 0x00A1,
        0x00A2, 0x00A3, 0x00A4, 0x00A5, 0x00A6, 0x00A7, 0x00A8, 0x00A9
      ][i - 24]
    else if i < 72 then
      [
        0x00AA, 0x00AB, 0x00AC, 0x00AD, 0x00AE, 0x00AF, 0x00B0, 0x00B1,
        0x00B2, 0x00B3, 0x00B4, 0x00B5, 0x00B6, 0x00B7, 0x00B8, 0x00B9,
        0x00BA, 0x00BB, 0x00BC, 0x00BD, 0x00BE, 0x00BF, 0x00C0, 0x00C1
      ][i - 48]
    else if i < 96 then
      [
        0x00C2, 0x00C3, 0x00C4, 0x00C5, 0x00C6, 0x00C7, 0x00C8, 0x00C9,
        0x00CC, 0x00CD, 0x00CE, 0x00CF, 0x00D2, 0x00D3, 0x00D4, 0x00D5,
        0x0180, 0x0181, 0x0184, 0x0185, 0x0186, 0x0187, 0x0188, 0x0189
      ][i - 72]
    else if i < 120 then
      [
        0x018A, 0x018B, 0x018C, 0x018D, 0x018E, 0x018F, 0x0190, 0x0191,
        0x0192, 0x0193, 0x0200, 0x0201, 0x0202, 0x0203, 0x0204, 0x0205,
        0x0206, 0x0207, 0x0208, 0x0209, 0x020A, 0x020B, 0x020C, 0x020D
      ][i - 96]
    else if i < 144 then
      [
        0x020E, 0x020F, 0x0210, 0x0211, 0x0212, 0x0213, 0x0214, 0x0215,
        0x0216, 0x0217, 0x0218, 0x0219, 0x021A, 0x021B, 0x021C, 0x021D,
        0x0240, 0x0241, 0x0242, 0x0243, 0x0244, 0x0245, 0x0246, 0x0247
      ][i - 120]
    else if i < 168 then
      [
        0x0248, 0x0249, 0x024A, 0x024B, 0x024C, 0x024D, 0x0280, 0x0281,
        0x0282, 0x0283, 0x0284, 0x0285, 0x0286, 0x0287, 0x0288, 0x0289,
        0x028A, 0x028B, 0x028C, 0x028D, 0x028E, 0x028F, 0x02C0, 0x02C1
      ][i - 144]
    else if i < 192 then
      [
        0x02C2, 0x02C3, 0x02C4, 0x02C5, 0x02C6, 0x02C7, 0x02C8, 0x02C9,
        0x02CA, 0x02CB, 0x02CC, 0x02CD, 0x02CE, 0x02CF, 0x02D0, 0x02D1,
        0x0300, 0x0301, 0x0302, 0x0303, 0x0308, 0x0309, 0x0340, 0x0341
      ][i - 168]
    else if i < 216 then
      [
        0x0342, 0x0343, 0x0344, 0x0345, 0x0346, 0x0347, 0x0348, 0x0349,
        0x034A, 0x034B, 0x0380, 0x0381, 0x0382, 0x0383, 0x0384, 0x0385,
        0x0386, 0x0387, 0x0388, 0x0389, 0x038A, 0x038B, 0x038C, 0x038D
      ][i - 192]
    else if i < 240 then
      [
        0x038E, 0x038F, 0x0390, 0x0391, 0x03C0, 0x03C1, 0x03C2, 0x03C3,
        0x1000, 0x1001, 0x1002, 0x1003, 0x1004, 0x1005, 0x1006, 0x1007,
        0x1008, 0x1009, 0x100A, 0x100B, 0x100C, 0x100D, 0x1020, 0x1021
      ][i - 216]
    else if i < 264 then
      [
        0x1022, 0x1023, 0x1024, 0x1025, 0x1026, 0x1027, 0x1028, 0x1029,
        0x1040, 0x1041, 0x1042, 0x1043, 0x1044, 0x1045, 0x1046, 0x1047,
        0x1048, 0x1049, 0x1080, 0x1081, 0x1100, 0x1101, 0x1102, 0x1103
      ][i - 240]
    else if i < 288 then
      [
        0x1104, 0x1105, 0x1106, 0x1107, 0x1108, 0x1109, 0x110A, 0x110B,
        0x110C, 0x110D, 0x110E, 0x110F, 0x1120, 0x1121, 0x1122, 0x1123,
        0x1124, 0x1125, 0x1126, 0x1127, 0x1128, 0x1129, 0x112A, 0x112B
      ][i - 264]
    else if i < 312 then
      [
        0x112C, 0x112D, 0x112E, 0x112F, 0x1140, 0x1141, 0x1142, 0x1143,
        0x1144, 0x1145, 0x1146, 0x1147, 0x1148, 0x1149, 0x114A, 0x114B,
        0x1160, 0x1161, 0x1162, 0x1163, 0x1164, 0x1165, 0x1166, 0x1167
      ][i - 288]
    else if i < 336 then
      [
        0x1168, 0x1169, 0x116A, 0x116B, 0x116C, 0x116D, 0x116E, 0x116F,
        0x1170, 0x1171, 0x1172, 0x1173, 0x1174, 0x1175, 0x1176, 0x1177,
        0x1178, 0x1179, 0x117A, 0x117B, 0x117C, 0x117D, 0x117E, 0x117F
      ][i - 312]
    else if i < 360 then
      [
        0x1180, 0x1181, 0x1182, 0x1183, 0x1184, 0x1185, 0x1186, 0x1187,
        0x1188, 0x1189, 0x118A, 0x118B, 0x118C, 0x118D, 0x118E, 0x118F,
        0x1190, 0x1191, 0x1192, 0x1193, 0x1194, 0x1195, 0x1196, 0x1197
      ][i - 336]
    else
      [
        0x1198, 0x1199, 0x119A, 0x119B, 0x119C, 0x119D, 0x119E, 0x119F,
        0x1200, 0x1201, 0x1202, 0x1203
      ][i - 360]
  }

  /** The name column: row `i`'s name. */
  function NameAt(i: int): string
    requires 0 <= i < RegisterCount
  {
    if i == 0 then "Group (upper)" // 0x0030
    else if i == 1 then "Group (lower)" // 0x0031
    else if i == 2 then "Driver input command (upper)" // 0x007C
    else if i == 3 then "Driver input command (lower)" // 0x007D
    else if i == 4 then "Driver output command (upper)" // 0x007E
    else if i == 5 then "Driver output command (lower)" // 0x007F
    else if i == 6 then "Present alarm (upper)" // 0x0080
    else if i == 7 then "Present alarm (lower)" // 0x0081
    else if i == 8 then "Alarm record 1 (upper)" // 0x0082
    else if i == 9 then "Alarm record 1 (lower)" // 0x0083
    else if i == 10 then "Alarm record 2 (upper)" // 0x0084
    else if i == 11 then "Alarm record 2 (lower)" // 0x0085
    else if i == 12 then "Alarm record 3 (upper)" // 0x0086
    else if i == 13 then "Alarm record 3 (lower)" // 0x0087
    else if i == 14 then "Alarm record 4 (upper)" // 0x0088
    else if i == 15 then "Alarm record 4 (lower)" // 0x0089
    else if i == 16 then "Alarm record 5 (upper)" // 0x008A
    else if i == 17 then "Alarm record 5 (lower)" // 0x008B
    else if i == 18 then "Alarm record 6 (upper)" // 0x008C
    else if i == 19 then "Alarm record 6 (lower)" // 0x008D
    else if i == 20 then "Alarm record 7 (upper)" // 0x008E
    else if i == 21 then "Alarm record 7 (lower)" // 0x008F
    else if i == 22 then "Alarm record 8 (upper)" // 0x0090
    else if i == 23 then "Alarm record 8 (lower)" // 0x0091
    else if i == 24 then "Alarm record 9 (upper)" // 0x0092
    else if i == 25 then "Alarm record 9 (lower)" // 0x0093
    else if i == 26 then "Alarm record 10 (upper)" // 0x0094
    else if i == 27 then "Alarm record 10 (lower)" // 0x0095
    else if i == 28 then "Present warning (upper)" // 0x0096
    else if i == 29 then "Present warning (lower)" // 0x0097
    else if i == 30 then "Warning record 1 (upper)" // 0x0098
    else if i == 31 then "Warning record 1 (lower)" // 0x0099
    else if i == 32 then "Warning record 2 (upper)" // 0x009A
    else if i == 33 then "Warning record 2 (lower)" // 0x009B
    else if i == 34 then "Warning record 3 (upper)" // 0x009C
    else if i == 35 then "Warning record 3 (lower)" // 0x009D
    else if i == 36 then "Warning record 4 (upper)" // 0x009E
    else if i == 37 then "Warning record 4 (lower)" // 0x009F
    else if i == 38 then "Warning record 5 (upper)" // 0x00A0
    else if i == 39 then "Warning record 5 (lower)" // 0x00A1
    else if i == 40 then "Warning record 6 (upper)" // 0x00A2
    else if i == 41 then "Warning record 6 (lower)" // 0x00A3
    else if i == 42 then "Warning record 7 (upper)" // 0x00A4
    else if i == 43 then "Warning record 7 (lower)" // 0x00A5
    else if i == 44 then "Warning record 8 (upper)" // 0x00A6
    else if i == 45 then "Warning record 8 (lower)" // 0x00A7
    else if i == 46 then "Warning record 9 (upper)" // 0x00A8
    else if i == 47 then "Warning record 9 (lower)" // 0x00A9
    else if i == 48 then "Warning record 10 (upper)" // 0x00AA
    else if i == 49 then "Warning record 10 (lower)" // 0x00AB
    else if i == 50 then "Communication error code (upper)" // 0x00AC
    else if i == 51 then "Communication error code (lower)" // 0x00AD
    else if i == 52 then "Communication error code record 1 (upper)" // 0x00AE
    else if i == 53 then "Communication error code record 1 (lower)" // 0x00AF
    else if i == 54 then "Communication error code record 2 (upper)" // 0x00B0
    else if i == 55 then "Communication error code record 2 (lower)" // 0x00B1
    else if i == 56 then "Communication error code record 3 (upper)" // 0x00B2
    else if i == 57 then "Communication error code record 3 (lower)" // 0x00B3
    else if i == 58 then "Communication error code record 4 (upper)" // 0x00B4
    else if i == 59 then "Communication error code record 4 (lower)" // 0x00B5
    else if i == 60 then "Communication error code record 5 (upper)" // 0x00B6
    else if i == 61 then "Communication error code record 5 (lower)" // 0x00B7
    else if i == 62 then "Communication error code record 6 (upper)" // 0x00B8
    else if i == 63 then "Communication error code record 6 (lower)" // 0x00B9
    else if i == 64 then "Communication error code record 7 (upper)" // 0x00BA
    else if i == 65 then "Communication error code record 7 (lower)" // 0x00BB
    else if i == 66 then "Communication error code record 8 (upper)" // 0x00BC
    else if i == 67 then "Communication error code record 8 (lower)" // 0x00BD
    else if i == 68 then "Communication error code record 9 (upper)" // 0x00BE
    else if i == 69 then "Communication error code record 9 (lower)" // 0x00BF
    else if i == 70 then "Communication error code record 10 (upper)" // 0x00C0
    else if i == 71 then "Communication error code record 10 (lower)" // 0x00C1
    else if i == 72 then "Present selected data No. (upper)" // 0x00C2
    else if i == 73 then "Present selected data No. (lower)" // 0x00C3
    else if i == 74 then "Present operation data No. (upper)" // 0x00C4
    else if i == 75 then "Present operation data No. (lower)" // 0x00C5
    else if i == 76 then "Command position (upper)" // 0x00C6
    else if i == 77 then "Command position (lower)" // 0x00C7
    else if i == 78 then "Command speed (upper)" // 0x00C8
    else if i == 79 then "Command speed (lower)" // 0x00C9
    else if i == 80 then "Actual position (upper)" // 0x00CC
    else if i == 81 then "Actual position (lower)" // 0x00CD
    else if i == 82 then "Actual speed (upper)" // 0x00CE
    else if i == 83 then "Actual speed (lower)" // 0x00CF
    else if i == 84 then "Remaining dwell time (upper)" // 0x00D2
    else if i == 85 then "Remaining dwell time (lower)" // 0x00D3
    else if i == 86 then "Direct I/O and electromagnetic brake status (upper)" // 0x00D4
    else if i == 87 then "Direct I/O and electromagnetic brake status (lower)" // 0x00D5
    else if i == 88 then "Reset alarm (upper)" // 0x0180
    else if i == 89 then "Reset alarm (lower)" // 0x0181
    else if i == 90 then "Clear alarm records (upper)" // 0x0184
    else if i == 91 then "Clear alarm records (lower)" // 0x0185
    else if i == 92 then "Clear warning records (upper)" // 0x0186
    else if i == 93 then "Clear warning records (lower)" // 0x0187
    else if i == 94 then "Clear communication error records (upper)" // 0x0188
    else if i == 95 then "Clear communication error records (lower)" // 0x0189
    else if i == 96 then "P-PRESET execute (upper)" // 0x018A
    else if i == 97 then "P-PRESET execute (lower)" // 0x018B
    else if i == 98 then "Configuration (upper)" // 0x018C
    else if i == 99 then "Configuration (lower)" // 0x018D
    else if i == 100 then "All data initialization (upper) * Resets the operation data and parameters saved in the non-volatile memory, to their defaults." // 0x018E
    else if i == 101 then "All data initialization (lower) *" // 0x018F
    else if i == 102 then "Batch non-volatile memory read (upper)" // 0x0190
    else if i == 103 then "Batch non-volatile memory read (lower)" // 0x0191
    else if i == 104 then "Batch non-volatile memory write (upper)" // 0x0192
    else if i == 105 then "Batch non-volatile memory write (lower)" // 0x0193
    else if i == 106 then "STOP input action (upper)" // 0x0200
    else if i == 107 then "STOP input action (lower)" // 0x0201
    else if i == 108 then "Hardware overtravel (upper)" // 0x0202
    else if i == 109 then "Hardware overtravel (lower)" // 0x0203
    else if i == 110 then "Overtravel action (upper)" // 0x0204
    else if i == 111 then "Overtravel action (lower)" // 0x0205
    else if i == 112 then "END signal range (upper)" // 0x0206
    else if i == 113 then "END signal range (lower)" // 0x0207
    else if i == 114 then "Positioning complete output offset (upper)" // 0x0208
    else if i == 115 then "Positioning complete output offset (lower)" // 0x0209
    else if i == 116 then "AREA1 positive direction position (upper)" // 0x020A
    else if i == 117 then "AREA1 positive direction position (lower)" // 0x020B
    else if i == 118 then "AREA1 negative direction position (upper)" // 0x020C
    else if i == 119 then "AREA1 negative direction position (lower)" // 0x020D
    else if i == 120 then "AREA2 positive direction position (upper)" // 0x020E
    else if i == 121 then "AREA2 positive direction position (lower)" // 0x020F
    else if i == 122 then "AREA2 negative direction position (upper)" // 0x0210
    else if i == 123 then "AREA2 negative direction position (lower)" // 0x0211
    else if i == 124 then "AREA3 positive direction position (upper)" // 0x0212
    else if i == 125 then "AREA3 positive direction position (lower)" // 0x0213
    else if i == 126 then "AREA3 negative direction position (upper)" // 0x0214
    else if i == 127 then "AREA3 negative direction position (lower)" // 0x0215
    else if i == 128 then "Minimum ON time for MOVE output (upper)" // 0x0216
    else if i == 129 then "Minimum ON time for MOVE output (lower)" // 0x0217
    else if i == 130 then "LS contact configration (upper)" // 0x0218
    else if i == 131 then "LS contact configration (lower)" // 0x0219
    else if i == 132 then "HOMES logic level (upper)" // 0x021A
    else if i == 133 then "HOMES logic level (lower)" // 0x021B
    else if i == 134 then "SLIT logic level (upper)" // 0x021C
    else if i == 135 then "SLIT logic level (lower)" // 0x021D
    else if i == 136 then "RUN current (upper)" // 0x0240
    else if i == 137 then "RUN current (lower)" // 0x0241
    else if i == 138 then "STOP current (upper)" // 0x0242
    else if i == 139 then "STOP current (lower)" // 0x0243
    else if i == 140 then "Position loop gain (upper)" // 0x0244
    else if i == 141 then "Position loop gain (lower)" // 0x0245
    else if i == 142 then "Speed loop gain (upper)" // 0x0246
    else if i == 143 then "Speed loop gain (lower)" // 0x0247
    else if i == 144 then "Speed loop integral time constant (upper)" // 0x0248
    else if i == 145 then "Speed loop integral time constant (lower)" // 0x0249
    else if i == 146 then "Speed filter (upper)" // 0x024A
    else if i == 147 then "Speed filter (lower)" // 0x024B
    else if i == 148 then "Moving average time (upper)" // 0x024C
    else if i == 149 then "Moving average time (lower)" // 0x024D
    else if i == 150 then "Common acceleration (upper)" // 0x0280
    else if i == 151 then "Common acceleration (lower)" // 0x0281
    else if i == 152 then "Common deceleration (upper)" // 0x0282
    else if i == 153 then "Common deceleration (lower)" // 0x0283
    else if i == 154 then "Starting speed (upper)" // 0x0284
    else if i == 155 then "Starting speed (lower)" // 0x0285
    else if i == 156 then "JOG operating speed (upper)" // 0x0286
    else if i == 157 then "JOG operating speed (lower)" // 0x0287
    else if i == 158 then "Acceleration/deceleration rate of JOG (upper)" // 0x0288
    else if i == 159 then "Acceleration/deceleration rate of JOG (lower)" // 0x0289
    else if i == 160 then "JOG starting speed (upper)" // 0x028A
    else if i == 161 then "JOG starting speed (lower)" // 0x028B
    else if i == 162 then "Acceleration/deceleration type (upper)" // 0x028C
    else if i == 163 then "Acceleration/deceleration type (lower)" // 0x028D
    else if i == 164 then "Acceleration/deceleration unit (upper)" // 0x028E
    else if i == 165 then "Acceleration/deceleration unit (lower)" // 0x028F
    else if i == 166 then "Home-seeking mode (upper)" // 0x02C0
    else if i == 167 then "Home-seeking mode (lower)" // 0x02C1
    else if i == 168 then "Operating speed of home- seeking (upper)" // 0x02C2
    else if i == 169 then "Operating speed of home- seeking (lower)" // 0x02C3
    else if i == 170 then "Acceleration/deceleration of home-seeking (upper)" // 0x02C4
    else if i == 171 then "Acceleration/deceleration of home-seeking (lower)" // 0x02C5
    else if i == 172 then "Starting speed of home-seeking (upper)" // 0x02C6
    else if i == 173 then "Starting speed of home-seeking (lower)" // 0x02C7
    else if i == 174 then "Position offset of home-seeking (upper)" // 0x02C8
    else if i == 175 then "Position offset of home-seeking (lower)" // 0x02C9
    else if i == 176 then "Starting direction of home- seeking (upper)" // 0x02CA
    else if i == 177 then "Starting direction of home- seeking (lower)" // 0x02CB
    else if i == 178 then "SLIT detection with home- seeking (upper)" // 0x02CC
    else if i == 179 then "SLIT detection with home- seeking (lower)" // 0x02CD
    else if i == 180 then "TIM signal detection with home- seeking (upper)" // 0x02CE
    else if i == 181 then "TIM signal detection with home- seeking (lower)" // 0x02CF
    else if i == 182 then "Operating current of home- seeking with push-motion (upper)" // 0x02D0
    else if i == 183 then "Operating current of home- seeking with push-motion (lower)" // 0x02D1
    else if i == 184 then "Overload alarm (upper)" // 0x0300
    else if i == 185 then "Overload alarm (lower)" // 0x0301
    else if i == 186 then "Excessive position deviation alarm at current ON (upper)" // 0x0302
    else if i == 187 then "Excessive position deviation alarm at current ON (lower)" // 0x0303
    else if i == 188 then "Return-to-home incomplete alarm (upper)" // 0x0308
    else if i == 189 then "Return-to-home incomplete alarm (lower)" // 0x0309
    else if i == 190 then "Overheat warning (upper)" // 0x0340
    else if i == 191 then "Overheat warning (lower)" // 0x0341
    else if i == 192 then "Overload warning (upper)" // 0x0342
    else if i == 193 then "Overload warning (lower)" // 0x0343
    else if i == 194 then "Overspeed warning (upper)" // 0x0344
    else if i == 195 then "Overspeed warning (lower)" // 0x0345
    else if i == 196 then "Overvoltage warning (upper)" // 0x0346
    else if i == 197 then "Overvoltage warning (lower)" // 0x0347
    else if i == 198 then "Undervoltage warning (upper)" // 0x0348
    else if i == 199 then "Undervoltage warning (lower)" // 0x0349
    else if i == 200 then "Excessive position deviation warning at current ON (upper)" // 0x034A
    else if i == 201 then "Excessive position deviation warning at current ON (lower)" // 0x034B
    else if i == 202 then "Electronic gear A (upper)" // 0x0380
    else if i == 203 then "Electronic gear A (lower)" // 0x0381
    else if i == 204 then "Electronic gear B (upper)" // 0x0382
    else if i == 205 then "Electronic gear B (lower)" // 0x0383
    else if i == 206 then "Motor rotation direction (upper)" // 0x0384
    else if i == 207 then "Motor rotation direction (lower)" // 0x0385
    else if i == 208 then "Software overtravel (upper)" // 0x0386
    else if i == 209 then "Software overtravel (lower)" // 0x0387
    else if i == 210 then "Positive software limit (upper)" // 0x0388
    else if i == 211 then "Positive software limit (lower)" // 0x0389
    else if i == 212 then "Negative software limit (upper)" // 0x038A
    else if i == 213 then "Negative software limit (lower)" // 0x038B
    else if i == 214 then "Preset position (upper)" // 0x038C
    else if i == 215 then "Preset position (lower)" // 0x038D
    else if i == 216 then "Wrap setting (upper)" // 0x038E
    else if i == 217 then "Wrap setting (lower)" // 0x038F
    else if i == 218 then "Wrap setting range (upper)" // 0x0390
    else if i == 219 then "Wrap setting range (lower)" // 0x0391
    else if i == 220 then "Data setter speed display (upper)" // 0x03C0
    else if i == 221 then "Data setter speed display (lower)" // 0x03C1
    else if i == 222 then "Data setter edit (upper)" // 0x03C2
    else if i == 223 then "Data setter edit (lower)" // 0x03C3
    else if i == 224 then "MS0 operation No. selection (upper)" // 0x1000
    else if i == 225 then "MS0 operation No. selection (lower)" // 0x1001
    else if i == 226 then "MS1 operation No. selection (upper)" // 0x1002
    else if i == 227 then "MS1 operation No. selection (lower)" // 0x1003
    else if i == 228 then "MS2 operation No. selection (upper)" // 0x1004
    else if i == 229 then "MS2 operation No. selection (lower)" // 0x1005
    else if i == 230 then "MS3 operation No. selection (upper)" // 0x1006
    else if i == 231 then "MS3 operation No. selection (lower)" // 0x1007
    else if i == 232 then "MS4 operation No. selection (upper)" // 0x1008
    else if i == 233 then "MS4 operation No. selection (lower)" // 0x1009
    else if i == 234 then "MS5 operation No. selection (upper)" // 0x100A
    else if i == 235 then "MS5 operation No. selection (lower)" // 0x100B
    else if i == 236 then "HOME-P output function selection (upper)" // 0x100C
    else if i == 237 then "HOME-P output function selection (lower)" // 0x100D
    else if i == 238 then "Filter selection (upper)" // 0x1020
    else if i == 239 then "Filter selection (lower)" // 0x1021
    else if i == 240 then "Speed difference gain 1 (upper)" // 0x1022
    else if i == 241 then "Speed difference gain 1 (lower)" // 0x1023
    else if i == 242 then "Speed difference gain 2 (upper)" // 0x1024
    else if i == 243 then "Speed difference gain 2 (lower)" // 0x1025
    else if i == 244 then "Control mode (upper)" // 0x1026
    else if i == 245 then "Control mode (lower)" // 0x1027
    else if i == 246 then "Smooth drive (upper)" // 0x1028
    else if i == 247 then "Smooth drive (lower)" // 0x1029
    else if i == 248 then "Automatic return operation (upper)" // 0x1040
    else if i == 249 then "Automatic return operation (lower)" // 0x1041
    else if i == 250 then "Operation speed of automatic return (upper)" // 0x1042
    else if i == 251 then "Operation speed of automatic return (lower)" // 0x1043
    else if i == 252 then "Acceleration (deceleration) of automatic return (upper)" // 0x1044
    else if i == 253 then "Acceleration (deceleration) of automatic return (lower)" // 0x1045
    else if i == 254 then "Starting speed of automatic return (upper)" // 0x1046
    else if i == 255 then "Starting speed of automatic return (lower)" // 0x1047
    else if i == 256 then "JOG travel amount (upper)" // 0x1048
    else if i == 257 then "JOG travel amount (lower)" // 0x1049
    else if i == 258 then "Excessive position deviation alarm at current OFF (upper)" // 0x1080
    else if i == 259 then "Excessive position deviation alarm at current OFF (lower)" // 0x1081
    else if i == 260 then "IN0 input function selection (upper)" // 0x1100
    else if i == 261 then "IN0 input function selection (lower)" // 0x1101
    else if i == 262 then "IN1 input function selection (upper)" // 0x1102
    else if i == 263 then "IN1 input function selection (lower)" // 0x1103
    else if i == 264 then "IN2 input function selection (upper)" // 0x1104
    else if i == 265 then "IN2 input function selection (lower)" // 0x1105
    else if i == 266 then "IN3 input function selection (upper)" // 0x1106
    else if i == 267 then "IN3 input function selection (lower)" // 0x1107
    else if i == 268 then "IN4 input function selection (upper)" // 0x1108
    else if i == 269 then "IN4 input function selection (lower)" // 0x1109
    else if i == 270 then "IN5 input function selection (upper)" // 0x110A
    else if i == 271 then "IN5 input function selection (lower)" // 0x110B
    else if i == 272 then "IN6 input function selection (upper)" // 0x110C
    else if i == 273 then "IN6 input function selection (lower)" // 0x110D
    else if i == 274 then "IN7 input function selection (upper)" // 0x110E
    else if i == 275 then "IN7 input function selection (lower)" // 0x110F
    else if i == 276 then "IN0 input logic level setting (upper)" // 0x1120
    else if i == 277 then "IN0 input logic level setting (lower)" // 0x1121
    else if i == 278 then "IN1 input logic level setting (upper)" // 0x1122
    else if i == 279 then "IN1 input logic level setting (lower)" // 0x1123
    else if i == 280 then "IN2 input logic level setting (upper)" // 0x1124
    else if i == 281 then "IN2 input logic level setting (lower)" // 0x1125
    else if i == 282 then "IN3 input logic level setting (upper)" // 0x1126
    else if i == 283 then "IN3 input logic level setting (lower)" // 0x1127
    else if i == 284 then "IN4 input logic level setting (upper)" // 0x1128
    else if i == 285 then "IN4 input logic level setting (lower)" // 0x1129
    else if i == 286 then "IN5 input logic level setting (upper)" // 0x112A
    else if i == 287 then "IN5 input logic level setting (lower)" // 0x112B
    else if i == 288 then "IN6 input logic level setting (upper)" // 0x112C
    else if i == 289 then "IN6 input logic level setting (lower)" // 0x112D
    else if i == 290 then "IN7 input logic level setting (upper)" // 0x112E
    else if i == 291 then "IN7 input logic level setting (lower)" // 0x112F
    else if i == 292 then "OUT0 output function selection (upper)" // 0x1140
    else if i == 293 then "OUT0 output function selection (lower)" // 0x1141
    else if i == 294 then "OUT1 output function selection (upper)" // 0x1142
    else if i == 295 then "OUT1 output function selection (lower)" // 0x1143
    else if i == 296 then "OUT2 output function selection (upper)" // 0x1144
    else if i == 297 then "OUT2 output function selection (lower)" // 0x1145
    else if i == 298 then "OUT3 output function selection (upper)" // 0x1146
    else if i == 299 then "OUT3 output function selection (lower)" // 0x1147
    else if i == 300 then "OUT4 output function selection (upper)" // 0x1148
    else if i == 301 then "OUT4 output function selection (lower)" // 0x1149
    else if i == 302 then "OUT5 output function selection (upper)" // 0x114A
    else if i == 303 then "OUT5 output function selection (lower)" // 0x114B
    else if i == 304 then "NET-IN0 input function selection (upper)" // 0x1160
    else if i == 305 then "NET-IN0 input function selection (lower)" // 0x1161
    else if i == 306 then "NET-IN1 input function selection (upper)" // 0x1162
    else if i == 307 then "NET-IN1 input function selection (lower)" // 0x1163
    else if i == 308 then "NET-IN2 input function selection (upper)" // 0x1164
    else if i == 309 then "NET-IN2 input function selection (lower)" // 0x1165
    else if i == 310 then "NET-IN3 input function selection (upper)" // 0x1166
    else if i == 311 then "NET-IN3 input function selection (lower)" // 0x1167
    else if i == 312 then "NET-IN4 input function selection (upper)" // 0x1168
    else if i == 313 then "NET-IN4 input function selection (lower)" // 0x1169
    else if i == 314 then "NET-IN5 input function selection (upper)" // 0x116A
    else if i == 315 then "NET-IN5 input function selection (lower)" // 0x116B
    else if i == 316 then "NET-IN6 input function selection (upper)" // 0x116C
    else if i == 317 then "NET-IN6 input function selection (lower)" // 0x116D
    else if i == 318 then "NET-IN7 input function selection (upper)" // 0x116E
    else if i == 319 then "NET-IN7 input function selection (lower)" // 0x116F
    else if i == 320 then "NET-IN8 input function selection (upper)" // 0x1170
    else if i == 321 then "NET-IN8 input function selection (lower)" // 0x1171
    else if i == 322 then "NET-IN9 input function selection (upper)" // 0x1172
    else if i == 323 then "NET-IN9 input function selection (lower)" // 0x1173
    else if i == 324 then "NET-IN10 input function selection (upper)" // 0x1174
    else if i == 325 then "NET-IN10 input function selection (lower)" // 0x1175
    else if i == 326 then "NET-IN11 input function selection (upper)" // 0x1176
    else if i == 327 then "NET-IN11 input function selection (lower)" // 0x1177
    else if i == 328 then "NET-IN12 input function selection (upper)" // 0x1178
    else if i == 329 then "NET-IN12 input function selection (lower)" // 0x1179
    else if i == 330 then "NET-IN13 input function selection (upper)" // 0x117A
    else if i == 331 then "NET-IN13 input function selection (lower)" // 0x117B
    else if i == 332 then "NET-IN14 input function selection (upper)" // 0x117C
    else if i == 333 then "NET-IN14 input function selection (lower)" // 0x117D
    else if i == 334 then "NET-IN15 input function selection (upper)" // 0x117E
    else if i == 335 then "NET-IN15 input function selection (lower)" // 0x117F
    else if i == 336 then "NET-OUT0 output function selection (upper)" // 0x1180
    else if i == 337 then "NET-OUT0 output function selection (lower)" // 0x1181
    else if i == 338 then "NET-OUT1 output function selection (upper)" // 0x1182
    else if i == 339 then "NET-OUT1 output function selection (lower)" // 0x1183
    else if i == 340 then "NET-OUT2 output function selection (upper)" // 0x1184
    else if i == 341 then "NET-OUT2 output function selection (lower)" // 0x1185
    else if i == 342 then "NET-OUT3 output function selection (upper)" // 0x1186
    else if i == 343 then "NET-OUT3 output function selection (lower)" // 0x1187
    else if i == 344 then "NET-OUT4 output function selection (upper)" // 0x1188
    else if i == 345 then "NET-OUT4 output function selection (lower)" // 0x1189
    else if i == 346 then "NET-OUT5 output function selection (upper)" // 0x118A
    else if i == 347 then "NET-OUT5 output function selection (lower)" // 0x118B
    else if i == 348 then "NET-OUT6 output function selection (upper)" // 0x118C
    else if i == 349 then "NET-OUT6 output function selection (lower)" // 0x118D
    else if i == 350 then "NET-OUT7 output function selection (upper)" // 0x118E
    else if i == 351 then "NET-OUT7 output function selection (lower)" // 0x118F
    else if i == 352 then "NET-OUT8 output function selection (upper)" // 0x1190
    else if i == 353 then "NET-OUT8 output function selection (lower)" // 0x1191
    else if i == 354 then "NET-OUT9 output function selection (upper)" // 0x1192
    else if i == 355 then "NET-OUT9 output function selection (lower)" // 0x1193
    else if i == 356 then "NET-OUT10 output function selection (upper)" // 0x1194
    else if i == 357 then "NET-OUT10 output function selection (lower)" // 0x1195
    else if i == 358 then "NET-OUT11 output function selection (upper)" // 0x1196
    else if i == 359 then "NET-OUT11 output function selection (lower)" // 0x1197
    else if i == 360 then "NET-OUT12 output function selection (upper)" // 0x1198
    else if i == 361 then "NET-OUT12 output function selection (lower)" // 0x1199
    else if i == 362 then "NET-OUT13 output function selection (upper)" // 0x119A
    else if i == 363 then "NET-OUT13 output function selection (lower)" // 0x119B
    else if i == 364 then "NET-OUT14 output function selection (upper)" // 0x119C
    else if i == 365 then "NET-OUT14 output function selection (lower)" // 0x119D
    else if i == 366 then "NET-OUT15 output function selection (upper)" // 0x119E
    else if i == 367 then "NET-OUT15 output function selection (lower)" // 0x119F
    else if i == 368 then "Communication timeout (upper)" // 0x1200
    else if i == 369 then "Communication timeout (lower)" // 0x1201
    else if i == 370 then "Communication error alarm (upper)" // 0x1202
    else "Communication error alarm (lower)" // 0x1203
  }

  /** `arKd2FullRegisterMap`: every row of the table, in table order. */
  function FullRegisterMap(): seq<RegisterEntry>
  {
    seq(RegisterCount, i requires 0 <= i < RegisterCount => RegisterEntry(AddressAt(i), NameAt(i)))
  }

  /** The name of the first row whose address is `address`, if any. */
  function Lookup(entries: seq<RegisterEntry>, address: int): Option<string>
  {
    if |entries| == 0 then None
    else if entries[0].address == address then Some(entries[0].name)
    else Lookup(entries[1..], address)
  }

  /** The scan of `arKd2RegisterName`: front to back, returning the first match. */
  method FindName(entries: seq<RegisterEntry>, address: int) returns (r: Option<string>)
    ensures r == Lookup(entries, address)
  {
    var i := 0;
    while i < |entries|
      invariant 0 <= i <= |entries|
      invariant Lookup(entries[i..], address) == Lookup(entries, address)
    {
      if entries[i].address == address {
        return Some(entries[i].name);
      }
      assert entries[i..][1..] == entries[i + 1..];
      i := i + 1;
    }
    return None;
  }

  /** `arKd2RegisterName`: the name of the first table row at `address`, if any. */
  method RegisterName(address: Address) returns (r: Option<string>)
    ensures r == Lookup(FullRegisterMap(), address)
  {
    r := FindName(FullRegisterMap(), address);
  }

  // ---------------------------------------------------------------------
  // Properties of the lookup
  // ---------------------------------------------------------------------

  /** Addresses strictly increase along the table. */
  ghost predicate Ascending(entries: seq<RegisterEntry>)
  {
    forall i, j :: 0 <= i < j < |entries| ==> entries[i].address < entries[j].address
  }

  /** Neighbouring addresses increase. */
  ghost predicate Chain(entries: seq<RegisterEntry>)
  {
    forall i :: 0 <= i < |entries| - 1 ==> entries[i].address < entries[i + 1].address
  }

  /** The lookup names a row carrying the address, earlier than any other such row,
      and finds nothing exactly when no row carries it. */
  lemma {:induction false} LookupSpec(entries: seq<RegisterEntry>, address: int)
    ensures Lookup(entries, address).None? <==> forall e :: e in entries ==> e.address != address
    ensures Lookup(entries, address).Some? ==>
      exists i :: 0 <= i < |entries| && entries[i].name == Lookup(entries, address).value &&
        entries[i].address == address && forall j :: 0 <= j < i ==> entries[j].address != address
  {
    if |entries| > 0 && entries[0].address != address {
      var rest := entries[1..];
      LookupSpec(rest, address);
      if Lookup(entries, address).Some? {
        var i :| 0 <= i < |rest| && rest[i].name == Lookup(entries, address).value &&
          rest[i].address == address && forall j :: 0 <= j < i ==> rest[j].address != address;
        assert entries[i + 1] == rest[i];
        forall j | 0 <= j < i + 1
          ensures entries[j].address != address
        {
          if j > 0 {
            assert entries[j] == rest[j - 1];
          }
        }
      }
      forall e | e in entries
        ensures Lookup(entries, address).None? ==> e.address != address
      {
        if e != entries[0] {
          assert e in rest;
        }
      }
    }
  }

  /** In an ascending table the lookup of a row's address gives that row's name. */
  lemma AscendingLookup(entries: seq<RegisterEntry>, k: nat)
    requires Ascending(entries)
    requires k < |entries|
    ensures Lookup(entries, entries[k].address) == Some(entries[k].name)
  {
    var address := entries[k].address;
    LookupSpec(entries, address);
    var i :| 0 <= i < |entries| && entries[i].name == Lookup(entries, address).value &&
      entries[i].address == address && forall j :: 0 <= j < i ==> entries[j].address != address;
    assert i == k;
  }

  /** An address below the first one of an ascending table is absent. */
  lemma BelowFirstAbsent(entries: seq<RegisterEntry>, address: int)
    requires Ascending(entries)
    requires |entries| > 0 && address < entries[0].address
    ensures Lookup(entries, address) == None
  {
    LookupSpec(entries, address);
    forall e | e in entries
      ensures e.address != address
    {
      var i :| 0 <= i < |entries| && entries[i] == e;
      assert i == 0 || entries[0].address < entries[i].address;
    }
  }


  // ---------------------------------------------------------------------
  // Properties of the table
  // ---------------------------------------------------------------------

  lemma {:induction false} ChainAscending(entries: seq<RegisterEntry>)
    requires Chain(entries)
    ensures Ascending(entries)
  {
    forall i, j | 0 <= i < j < |entries|
      ensures entries[i].address < entries[j].address
    {
      var k := i + 1;
      while k < j
        invariant i < k <= j
        invariant entries[i].address < entries[k].address
      {
        k := k + 1;
      }
    }
  }

  /** Addresses increase across rows 0 to 23 and into the next block. */
  lemma AddressChain0()
    ensures forall i | 0 <= i < 24 :: AddressAt(i) < AddressAt(i + 1)
  {
  }

  /** Addresses increase across rows 24 to 47 and into the next block. */
  lemma AddressChain1()
    ensures forall i | 24 <= i < 48 :: AddressAt(i) < AddressAt(i + 1)
  {
  }

  /** Addresses increase across rows 48 to 71 and into the next block. */
  lemma AddressChain2()
    ensures forall i | 48 <= i < 72 :: AddressAt(i) < AddressAt(i + 1)
  {
  }

  /** Addresses increase across rows 72 to 95 and into the next block. */
  lemma AddressChain3()
    ensures forall i | 72 <= i < 96 :: AddressAt(i) < AddressAt(i + 1)
  {
  }

  /** Addresses increase across rows 96 to 119 and into the next block. */
  lemma AddressChain4()
    ensures forall i | 96 <= i < 120 :: AddressAt(i) < AddressAt(i + 1)
  {
  }

  /** Addresses increase across rows 120 to 143 and into the next block. */
  lemma AddressChain5()
    ensures forall i | 120 <= i < 144 :: AddressAt(i) < AddressAt(i + 1)
  {
  }

  /** Addresses increase across rows 144 to 167 and into the next block. */
  lemma AddressChain6()
    ensures forall i | 144 <= i < 168 :: AddressAt(i) < AddressAt(i + 1)
  {
  }

  /** Addresses increase across rows 168 to 191 and into the next block. */
  lemma AddressChain7()
    ensures forall i | 168 <= i < 192 :: AddressAt(i) < AddressAt(i + 1)
  {
  }

  /** Addresses increase across rows 192 to 215 and into the next block. */
  lemma AddressChain8()
    ensures forall i | 192 <= i < 216 :: AddressAt(i) < AddressAt(i + 1)
  {
  }

  /** Addresses increase across rows 216 to 239 and into the next block. */
  lemma AddressChain9()
    ensures forall i | 216 <= i < 240 :: AddressAt(i) < AddressAt(i + 1)
  {
  }

  /** Addresses increase across rows 240 to 263 and into the next block. */
  lemma AddressChain10()
    ensures forall i | 240 <= i < 264 :: AddressAt(i) < AddressAt(i + 1)
  {
  }

  /** Addresses increase across rows 264 to 287 and into the next block. */
  lemma AddressChain11()
    ensures forall i | 264 <= i < 288 :: AddressAt(i) < AddressAt(i + 1)
  {
  }

  /** Addresses increase across rows 288 to 311 and into the next block. */
  lemma AddressChain12()
    ensures forall i | 288 <= i < 312 :: AddressAt(i) < AddressAt(i + 1)
  {
  }

  /** Addresses increase across rows 312 to 335 and into the next block. */
  lemma AddressChain13()
    ensures forall i | 312 <= i < 336 :: AddressAt(i) < AddressAt(i + 1)
  {
  }

  /** Addresses increase across rows 336 to 359 and into the next block. */
  lemma AddressChain14()
    ensures forall i | 336 <= i < 360 :: AddressAt(i) < AddressAt(i + 1)
  {
  }

  /** Addresses increase across rows 360 to 371. */
  lemma AddressChain15()
    ensures forall i | 360 <= i < 371 :: AddressAt(i) < AddressAt(i + 1)
  {
  }

  /** The table holds all 372 rows with strictly ascending, hence unique, addresses. */
  lemma FullRegisterMapAscending()
    ensures |FullRegisterMap()| == RegisterCount
    ensures Ascending(FullRegisterMap())
  {
    AddressChain0();
    AddressChain1();
    AddressChain2();
    AddressChain3();
    AddressChain4();
    AddressChain5();
    AddressChain6();
    AddressChain7();
    AddressChain8();
    AddressChain9();
    AddressChain10();
    AddressChain11();
    AddressChain12();
    AddressChain13();
    AddressChain14();
    AddressChain15();
    ChainAscending(FullRegisterMap());
  }

  /** Every address lies between the first row's 0x0030 and the last row's 0x1203. */
  lemma AddressesInRange()
    ensures FullRegisterMap()[0] == RegisterEntry(0x0030, "Group (upper)")
    ensures FullRegisterMap()[RegisterCount - 1].address == 0x1203
    ensures forall e | e in FullRegisterMap() :: 0x0030 <= e.address <= 0x1203
  {
    FullRegisterMapAscending();
    var t := FullRegisterMap();
    forall e | e in t
      ensures 0x0030 <= e.address <= 0x1203
    {
      var i :| 0 <= i < |t| && t[i] == e;
      assert i == 0 || t[0].address < t[i].address;
      assert i == |t| - 1 || t[i].address < t[|t| - 1].address;
    }
  }

  /** Looking up any row's address yields that row's name. */
  lemma RegisterNameOfEveryRow(k: nat)
    requires k < RegisterCount
    ensures Lookup(FullRegisterMap(), FullRegisterMap()[k].address) == Some(FullRegisterMap()[k].name)
  {
    FullRegisterMapAscending();
    AscendingLookup(FullRegisterMap(), k);
  }

  /** 0x007D and 0x0080 name the driver input command and present alarm registers; 0x0001 is absent. */
  lemma RegisterNameExamples()
    ensures Lookup(FullRegisterMap(), 0x007D) == Some("Driver input command (lower)")
    ensures Lookup(FullRegisterMap(), 0x0080) == Some("Present alarm (upper)")
    ensures Lookup(FullRegisterMap(), 0x0001) == None
  {
    var t := FullRegisterMap();
    FullRegisterMapAscending();
    assert t[3] == RegisterEntry(0x007D, "Driver input command (lower)");
    assert t[6] == RegisterEntry(0x0080, "Present alarm (upper)");
    AscendingLookup(t, 3);
    AscendingLookup(t, 6);
    BelowFirstAbsent(t, 0x0001);
  }
}
