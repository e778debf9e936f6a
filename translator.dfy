/**
 * The country translator of src/record.rs: a fixed table from the source
 * system's four-digit country codes to three-letter codes, mostly
 * ISO 3166-1 alpha-3 plus a few of the source system's own (ASI, AZR, SCT,
 * WLS, ...), and the lookup that falls back to the code itself.
 */
module Translator {

  /** A table key: four characters. */
  type Code = s: string | |s| == 4 witness "0000"

  /** A table value: three characters. */
  type Alpha3 = s: string | |s| == 3 witness "USA"

  /** A table from codes to their translations. */
  type CountryTable = map<Code, Alpha3>

  // The table is written as the source builds it, one entry per `insert`
  // and in the same order, cut into blocks of at most twenty consecutive
  // inserts and joined with `+`, where an entry on the right replaces one on
  // the left with the same key, as a later `insert` does.

  /** The inserts at src/record.rs lines 64-83. */
  const Lines64To83: map<Code, Alpha3> := map[
    "1000" := "AFG",
    "1001" := "ALB",
    "1002" := "DZA",
    "1003" := "AND",
    "1004" := "AGO",
    "1213" := "AIA",
    "1214" := "ATG",
    "1005" := "ARG",
    "1215" := "ARM",
    "1216" := "ABW",
    "1006" := "ASI",
    "1007" := "AUS",
    "1008" := "AUT",
    "1217" := "AZE",
    "1009" := "AZR",
    "1010" := "BHS",
    "1011" := "BHR",
    "1012" := "BGD",
    "1013" := "BRB",
    "1218" := "BLR"
  ]

  /** The inserts at src/record.rs lines 84-103. */
  const Lines84To103: map<Code, Alpha3> := map[
    "1014" := "BEL",
    "1015" := "BLZ",
    "1016" := "BEN",
    "1017" := "BMU",
    "1018" := "BTN",
    "1019" := "BOL",
    "1206" := "BIH",
    "1021" := "BWA",
    "1022" := "BRA",
    "1219" := "VGB",
    "1024" := "BRN",
    "1025" := "BGR",
    "1195" := "BFA",
    "1026" := "MMR",
    "1027" := "BDI",
    "1028" := "KHM",
    "1029" := "CMR",
    "0001" := "CAN",
    "1030" := "CNI",
    "1032" := "CPV"
  ]

  /** The inserts at src/record.rs lines 104-123. */
  const Lines104To123: map<Code, Alpha3> := map[
    "1034" := "CYM",
    "1035" := "CAF",
    "1036" := "TCD",
    "1037" := "CHI",
    "1038" := "CHL",
    "1039" := "CHN",
    "1040" := "COL",
    "1041" := "COM",
    "1042" := "COG",
    "1222" := "COK",
    "1044" := "CRI",
    "1223" := "HRV",
    "1046" := "CYP",
    "1047" := "CZE",
    "1048" := "DNK",
    "1049" := "DJI",
    "1050" := "DMA",
    "1051" := "DOM",
    "1052" := "TLS",
    "1053" := "ECU"
  ]

  /** The inserts at src/record.rs lines 124-143. */
  const Lines124To143: map<Code, Alpha3> := map[
    "1054" := "EGY",
    "1055" := "SLV",
    "1056" := "GNQ",
    "1057" := "EST",
    "1058" := "ETH",
    "1059" := "FRO",
    "1061" := "FJI",
    "1062" := "FIN",
    "1063" := "FRA",
    "1064" := "GUF",
    "1065" := "PYF",
    "1066" := "GAB",
    "1067" := "GMB",
    "1225" := "GEO",
    "1068" := "DEU",
    "1070" := "GHA",
    "1071" := "GIB",
    "1073" := "GRC",
    "1074" := "GRL",
    "1075" := "GRD"
  ]

  /** The inserts at src/record.rs lines 144-163. */
  const Lines144To163: map<Code, Alpha3> := map[
    "1076" := "GLP",
    "1078" := "GTM",
    "1079" := "GIN",
    "1080" := "GNB",
    "1081" := "GUY",
    "1082" := "HTI",
    "1083" := "HND",
    "1084" := "HKG",
    "1085" := "HUN",
    "1086" := "ISL",
    "1087" := "IND",
    "1088" := "IDN",
    "1091" := "IRL",
    "1251" := "IMN",
    "1092" := "ISR",
    "1093" := "ITA",
    "1094" := "CIV",
    "1095" := "JAM",
    "1096" := "JPN",
    "1097" := "JOR"
  ]

  /** The inserts at src/record.rs lines 164-187. */
  const Lines164To187: map<Code, Alpha3> := map[
    "1226" := "KAZ",
    "1099" := "KEN",
    "1100" := "KIR",
    "1101" := "KOR",
    "1152" := "KOR",
    "1102" := "KWT",
    "1227" := "KGZ",
    "1103" := "LAO",
    "1104" := "LVA",
    "1105" := "LBN",
    "1107" := "LSO",
    "1108" := "LBR",
    "1109" := "LBY",
    "1110" := "LIE",
    "1111" := "LTU",
    "1112" := "LUX",
    "1113" := "MAC",
    "1228" := "MKD",
    "1114" := "MDG",
    "1115" := "MAD"
  ]

  /** The inserts at src/record.rs lines 188-207. */
  const Lines188To207: map<Code, Alpha3> := map[
    "1116" := "MWI",
    "1117" := "MYS",
    "1118" := "MDV",
    "1119" := "MLI",
    "1120" := "MLT",
    "1121" := "MTQ",
    "1123" := "MUS",
    "1122" := "MRT",
    "1124" := "MEX",
    "1231" := "MDA",
    "1125" := "MCO",
    "1126" := "MNG",
    "1232" := "MNE",
    "1233" := "MSR",
    "1127" := "MAR",
    "1128" := "MOZ",
    "1130" := "NAU",
    "1131" := "NPL",
    "1132" := "NLD",
    "1133" := "ANT"
  ]

  /** The inserts at src/record.rs lines 208-227. */
  const Lines208To227: map<Code, Alpha3> := map[
    "1134" := "NCL",
    "1135" := "NZL",
    "1136" := "NIC",
    "1137" := "NER",
    "1138" := "NGA",
    "1139" := "NID",
    "1140" := "NOR",
    "1141" := "OMN",
    "1142" := "PAK",
    "1235" := "PLW",
    "1143" := "PAN",
    "1144" := "PNG",
    "1145" := "PRY",
    "1146" := "PER",
    "1147" := "PHL",
    "1148" := "PIT",
    "1149" := "POL",
    "1150" := "PRT",
    "1151" := "QAT",
    "1153" := "REU"
  ]

  /** The inserts at src/record.rs lines 228-247. */
  const Lines228To247: map<Code, Alpha3> := map[
    "1155" := "ROU",
    "1193" := "RUS",
    "1156" := "RWA",
    "1129" := "NAM",
    "1238" := "SAB",
    "1157" := "SHN",
    "1158" := "LCA",
    "1241" := "SMR",
    "1161" := "STP",
    "1162" := "SAU",
    "1163" := "SCT",
    "1164" := "SEN",
    "1243" := "SRB",
    "1165" := "SYC",
    "1166" := "SLE",
    "1167" := "SGP",
    "1245" := "SVK",
    "1210" := "SVN",
    "1168" := "SLB",
    "1171" := "ZAF"
  ]

  /** The inserts at src/record.rs lines 248-267. */
  const Lines248To267: map<Code, Alpha3> := map[
    "1172" := "ESP",
    "1173" := "LKA",
    "1174" := "VCT",
    "1240" := "KNA",
    "1175" := "SDN",
    "1176" := "SUR",
    "1177" := "SWZ",
    "1178" := "SWE",
    "1179" := "CHE",
    "1181" := "TWN",
    "1246" := "TJK",
    "1182" := "TZA",
    "1183" := "THA",
    "1184" := "TGO",
    "1185" := "TON",
    "1186" := "TTO",
    "1187" := "TDC",
    "1188" := "TUN",
    "1189" := "TUR",
    "1247" := "TKM"
  ]

  /** The inserts at src/record.rs lines 268-286. */
  const Lines268To286: map<Code, Alpha3> := map[
    "1190" := "TCA",
    "1191" := "TUV",
    "1192" := "UGA",
    "1248" := "UKR",
    "1194" := "ARE",
    "1072" := "GBR",
    "1196" := "URY",
    "0000" := "USA",
    "1250" := "UZB",
    "1197" := "VUT",
    "1198" := "VTC",
    "1199" := "VEN",
    "1200" := "VNM",
    "1202" := "WLS",
    "1203" := "WSM",
    "1204" := "YEM",
    "1207" := "ZAI",
    "1208" := "ZMB",
    "1209" := "ZWE"
  ]

  const Table: CountryTable :=
    Lines64To83
    + Lines84To103
    + Lines104To123
    + Lines124To143
    + Lines144To163
    + Lines164To187
    + Lines188To207
    + Lines208To227
    + Lines228To247
    + Lines248To267
    + Lines268To286

  /**
   * `translate`: the entry of `table` for `code`, or `code` itself when the
   * table has none. The program always looks up `Table`; the table is a
   * parameter so that what is proved about the lookup holds of any table
   * of this shape. The result differs from `code` exactly when the table
   * has an entry for it, and an entry always has three characters.
   */
  function Translate(table: CountryTable, code: string): (r: string)
    ensures code in table ==> r == table[code] && |r| == 3
    ensures r == code <==> code !in table
  {
    if code in table then table[code] else code
  }

  /** Every key of the program's table has four characters and every entry three. */
  lemma TableShape()
    ensures forall code | code in Table :: |code| == 4 && |Table[code]| == 3
  {
    Shape(Table);
  }

  /** Every key of a country table has four characters and every entry three. */
  lemma Shape(table: CountryTable)
    ensures forall code | code in table :: |code| == 4 && |table[code]| == 3
  {
  }

  /**
   * Translating a translated code changes nothing more: an entry has three
   * characters, so it is never itself a key.
   */
  lemma TranslateIdempotent(table: CountryTable, code: string)
    ensures Translate(table, Translate(table, code)) == Translate(table, code)
  {
  }

  /**
   * Entries named in the source: the two North American codes, the
   * deliberate second Korean code, and a code the table does not know.
   */
  lemma KnownTranslations()
    ensures Translate(Table, "0000") == "USA"
    ensures Translate(Table, "0001") == "CAN"
    ensures Translate(Table, "1101") == "KOR"
    ensures Translate(Table, "1152") == "KOR"
    ensures Translate(Table, "9999") == "9999"
  {
    TableHasUnitedStates();
    TableHasCanada();
    TableHasKorea();
    TableLacks9999();
  }

  /** Two different codes translate to KOR, so translation is not injective. */
  lemma TranslateNotInjective()
    ensures Translate(Table, "1101") == Translate(Table, "1152")
  {
    TableHasKorea();
  }

  // Lookups in the whole table, from what each block holds (an entry
  // survives the join when no later block has its key).

  lemma TableHasUnitedStates()
    ensures "0000" in Table && Table["0000"] == "USA"
  {
    Lines268To286Probes();
  }

  lemma TableHasCanada()
    ensures "0001" in Table && Table["0001"] == "CAN"
  {
    Lines84To103Probes();
    Lines104To123Probes();
    Lines124To143Probes();
    Lines144To163Probes();
    Lines164To187Probes();
    Lines188To207Probes();
    Lines208To227Probes();
    Lines228To247Probes();
    Lines248To267Probes();
    Lines268To286Probes();
  }

  lemma TableHasKorea()
    ensures "1101" in Table && Table["1101"] == "KOR"
    ensures "1152" in Table && Table["1152"] == "KOR"
  {
    Lines164To187Probes();
    Lines188To207Probes();
    Lines208To227Probes();
    Lines228To247Probes();
    Lines248To267Probes();
    Lines268To286Probes();
  }

  lemma TableLacks9999()
    ensures "9999" !in Table
  {
    Lines64To83Probes();
    Lines84To103Probes();
    Lines104To123Probes();
    Lines124To143Probes();
    Lines144To163Probes();
    Lines164To187Probes();
    Lines188To207Probes();
    Lines208To227Probes();
    Lines228To247Probes();
    Lines248To267Probes();
    Lines268To286Probes();
  }

  // What each block holds of the codes named above.

  lemma Lines64To83Probes()
    ensures "0000" !in Lines64To83
    ensures "0001" !in Lines64To83
    ensures "1101" !in Lines64To83
    ensures "1152" !in Lines64To83
    ensures "9999" !in Lines64To83
  {
  }

  lemma Lines84To103Probes()
    ensures "0000" !in Lines84To103
    ensures "0001" in Lines84To103 && Lines84To103["0001"] == "CAN"
    ensures "1101" !in Lines84To103
    ensures "1152" !in Lines84To103
    ensures "9999" !in Lines84To103
  {
  }

  lemma Lines104To123Probes()
    ensures "0000" !in Lines104To123
    ensures "0001" !in Lines104To123
    ensures "1101" !in Lines104To123
    ensures "1152" !in Lines104To123
    ensures "9999" !in Lines104To123
  {
  }

  lemma Lines124To143Probes()
    ensures "0000" !in Lines124To143
    ensures "0001" !in Lines124To143
    ensures "1101" !in Lines124To143
    ensures "1152" !in Lines124To143
    ensures "9999" !in Lines124To143
  {
  }

  lemma Lines144To163Probes()
    ensures "0000" !in Lines144To163
    ensures "0001" !in Lines144To163
    ensures "1101" !in Lines144To163
    ensures "1152" !in Lines144To163
    ensures "9999" !in Lines144To163
  {
  }

  lemma Lines164To187Probes()
    ensures "0000" !in Lines164To187
    ensures "0001" !in Lines164To187
    ensures "1101" in Lines164To187 && Lines164To187["1101"] == "KOR"
    ensures "1152" in Lines164To187 && Lines164To187["1152"] == "KOR"
    ensures "9999" !in Lines164To187
  {
  }

  lemma Lines188To207Probes()
    ensures "0000" !in Lines188To207
    ensures "0001" !in Lines188To207
    ensures "1101" !in Lines188To207
    ensures "1152" !in Lines188To207
    ensures "9999" !in Lines188To207
  {
  }

  lemma Lines208To227Probes()
    ensures "0000" !in Lines208To227
    ensures "0001" !in Lines208To227
    ensures "1101" !in Lines208To227
    ensures "1152" !in Lines208To227
    ensures "9999" !in Lines208To227
  {
  }

  lemma Lines228To247Probes()
    ensures "0000" !in Lines228To247
    ensures "0001" !in Lines228To247
    ensures "1101" !in Lines228To247
    ensures "1152" !in Lines228To247
    ensures "9999" !in Lines228To247
  {
  }

  lemma Lines248To267Probes()
    ensures "0000" !in Lines248To267
    ensures "0001" !in Lines248To267
    ensures "1101" !in Lines248To267
    ensures "1152" !in Lines248To267
    ensures "9999" !in Lines248To267
  {
  }

  lemma Lines268To286Probes()
    ensures "0000" in Lines268To286 && Lines268To286["0000"] == "USA"
    ensures "0001" !in Lines268To286
    ensures "1101" !in Lines268To286
    ensures "1152" !in Lines268To286
    ensures "9999" !in Lines268To286
  {
  }
}
