/** The fixed list of Delhi Metro stations that station forecasts draw their
    names from, and the proof that no name appears in it twice. */
module StationCatalog {
  import opened Seqs

  /** `metroStations`: 40 station names (two spaces in "SECTOR  - 25" are
      part of that name). */
  const MetroStations: seq<string> := [
      "VAISHALI", "BRIG. HOSHIAR SINGH", "RITHALA", "KAROL BAGH",
      "YASHOBHOOMI DWARKA SECTOR  - 25", "SAMAYPUR BADLI", "KASHMERE GATE",
      "IFFCO CHOWK", "DELHI CANTT.", "BOTANICAL GARDEN", "RAJIV CHOWK",
      "NEW DELHI (Yellow & Airport Line)", "MANDI HOUSE", "JHILMIL",
      "MOOLCHAND", "CHIRAG DELHI", "RAMAKRISHNA ASHRAM MARG", "LAJPAT NAGAR",
      "AIIMS", "DELHI AEROCITY", "DWARKA SECTOR - 21", "NOIDA ELECTRONIC CITY",
      "JAMIA MILLIA ISLAMIA", "SULTANPUR", "AIRPORT (T-3)", "BARAKHAMBA ROAD",
      "JAMA MASJID", "JANAKPURI EAST", "RAMESH NAGAR", "HARKESH NAGAR OKHLA",
      "PATEL NAGAR", "LAL QUILA", "CENTRAL SECRETARIAT", "JANPATH",
      "CHANDNI CHOWK", "MUNDKA", "TILAK NAGAR", "RAJOURI GARDEN",
      "JAHANGIRPURI", "ADARSH NAGAR"
    ]

  /** `name` is one of the catalog's stations. */
  predicate InCatalog(name: string)
  {
    exists k :: 0 <= k < |MetroStations| && MetroStations[k] == name
  }

  /** The place of a name in the list, or -1 for a name not in it. Every entry
      being found at its own index is what makes the entries pairwise different. */
  function Position(name: string): int
  {
    if name == "VAISHALI" then 0
    else if name == "BRIG. HOSHIAR SINGH" then 1
    else if name == "RITHALA" then 2
    else if name == "KAROL BAGH" then 3
    else if name == "YASHOBHOOMI DWARKA SECTOR  - 25" then 4
    else if name == "SAMAYPUR BADLI" then 5
    else if name == "KASHMERE GATE" then 6
    else if name == "IFFCO CHOWK" then 7
    else if name == "DELHI CANTT." then 8
    else if name == "BOTANICAL GARDEN" then 9
    else if name == "RAJIV CHOWK" then 10
    else if name == "NEW DELHI (Yellow & Airport Line)" then 11
    else if name == "MANDI HOUSE" then 12
    else if name == "JHILMIL" then 13
    else if name == "MOOLCHAND" then 14
    else if name == "CHIRAG DELHI" then 15
    else if name == "RAMAKRISHNA ASHRAM MARG" then 16
    else if name == "LAJPAT NAGAR" then 17
    else if name == "AIIMS" then 18
    else if name == "DELHI AEROCITY" then 19
    else if name == "DWARKA SECTOR - 21" then 20
    else if name == "NOIDA ELECTRONIC CITY" then 21
    else if name == "JAMIA MILLIA ISLAMIA" then 22
    else if name == "SULTANPUR" then 23
    else if name == "AIRPORT (T-3)" then 24
    else if name == "BARAKHAMBA ROAD" then 25
    else if name == "JAMA MASJID" then 26
    else if name == "JANAKPURI EAST" then 27
    else if name == "RAMESH NAGAR" then 28
    else if name == "HARKESH NAGAR OKHLA" then 29
    else if name == "PATEL NAGAR" then 30
    else if name == "LAL QUILA" then 31
    else if name == "CENTRAL SECRETARIAT" then 32
    else if name == "JANPATH" then 33
    else if name == "CHANDNI CHOWK" then 34
    else if name == "MUNDKA" then 35
    else if name == "TILAK NAGAR" then 36
    else if name == "RAJOURI GARDEN" then 37
    else if name == "JAHANGIRPURI" then 38
    else if name == "ADARSH NAGAR" then 39
    else -1
  }

  lemma CatalogDistinct()
    ensures |MetroStations| == 40
    ensures Distinct(MetroStations)
  {
    forall i | 0 <= i < |MetroStations|
      ensures Position(MetroStations[i]) == i
    {
      if i == 0 {
        PositionOf0();
      } else if i == 1 {
        PositionOf1();
      } else if i == 2 {
        PositionOf2();
      } else if i == 3 {
        PositionOf3();
      } else if i == 4 {
        PositionOf4();
      } else if i == 5 {
        PositionOf5();
      } else if i == 6 {
        PositionOf6();
      } else if i == 7 {
        PositionOf7();
      } else if i == 8 {
        PositionOf8();
      } else if i == 9 {
        PositionOf9();
      } else if i == 10 {
        PositionOf10();
      } else if i == 11 {
        PositionOf11();
      } else if i == 12 {
        PositionOf12();
      } else if i == 13 {
        PositionOf13();
      } else if i == 14 {
        PositionOf14();
      } else if i == 15 {
        PositionOf15();
      } else if i == 16 {
        PositionOf16();
      } else if i == 17 {
        PositionOf17();
      } else if i == 18 {
        PositionOf18();
      } else if i == 19 {
        PositionOf19();
      } else if i == 20 {
        PositionOf20();
      } else if i == 21 {
        PositionOf21();
      } else if i == 22 {
        PositionOf22();
      } else if i == 23 {
        PositionOf23();
      } else if i == 24 {
        PositionOf24();
      } else if i == 25 {
        PositionOf25();
      } else if i == 26 {
        PositionOf26();
      } else if i == 27 {
        PositionOf27();
      } else if i == 28 {
        PositionOf28();
      } else if i == 29 {
        PositionOf29();
      } else if i == 30 {
        PositionOf30();
      } else if i == 31 {
        PositionOf31();
      } else if i == 32 {
        PositionOf32();
      } else if i == 33 {
        PositionOf33();
      } else if i == 34 {
        PositionOf34();
      } else if i == 35 {
        PositionOf35();
      } else if i == 36 {
        PositionOf36();
      } else if i == 37 {
        PositionOf37();
      } else if i == 38 {
        PositionOf38();
      } else if i == 39 {
        PositionOf39();
      }
    }
  }

  /* One small lemma per catalog entry: each looks up a single name, which
     keeps every proof obligation of CatalogDistinct small. */

  lemma PositionOf0()
    ensures Position(MetroStations[0]) == 0
  {
  }

  lemma PositionOf1()
    ensures Position(MetroStations[1]) == 1
  {
  }

  lemma PositionOf2()
    ensures Position(MetroStations[2]) == 2
  {
  }

  lemma PositionOf3()
    ensures Position(MetroStations[3]) == 3
  {
  }

  lemma PositionOf4()
    ensures Position(MetroStations[4]) == 4
  {
  }

  lemma PositionOf5()
    ensures Position(MetroStations[5]) == 5
  {
  }

  lemma PositionOf6()
    ensures Position(MetroStations[6]) == 6
  {
  }

  lemma PositionOf7()
    ensures Position(MetroStations[7]) == 7
  {
  }

  lemma PositionOf8()
    ensures Position(MetroStations[8]) == 8
  {
  }

  lemma PositionOf9()
    ensures Position(MetroStations[9]) == 9
  {
  }

  lemma PositionOf10()
    ensures Position(MetroStations[10]) == 10
  {
  }

  lemma PositionOf11()
    ensures Position(MetroStations[11]) == 11
  {
  }

  lemma PositionOf12()
    ensures Position(MetroStations[12]) == 12
  {
  }

  lemma PositionOf13()
    ensures Position(MetroStations[13]) == 13
  {
  }

  lemma PositionOf14()
    ensures Position(MetroStations[14]) == 14
  {
  }

  lemma PositionOf15()
    ensures Position(MetroStations[15]) == 15
  {
  }

  lemma PositionOf16()
    ensures Position(MetroStations[16]) == 16
  {
  }

  lemma PositionOf17()
    ensures Position(MetroStations[17]) == 17
  {
  }

  lemma PositionOf18()
    ensures Position(MetroStations[18]) == 18
  {
  }

  lemma PositionOf19()
    ensures Position(MetroStations[19]) == 19
  {
  }

  lemma PositionOf20()
    ensures Position(MetroStations[20]) == 20
  {
  }

  lemma PositionOf21()
    ensures Position(MetroStations[21]) == 21
  {
  }

  lemma PositionOf22()
    ensures Position(MetroStations[22]) == 22
  {
  }

  lemma PositionOf23()
    ensures Position(MetroStations[23]) == 23
  {
  }

  lemma PositionOf24()
    ensures Position(MetroStations[24]) == 24
  {
  }

  lemma PositionOf25()
    ensures Position(MetroStations[25]) == 25
  {
  }

  lemma PositionOf26()
    ensures Position(MetroStations[26]) == 26
  {
  }

  lemma PositionOf27()
    ensures Position(MetroStations[27]) == 27
  {
  }

  lemma PositionOf28()
    ensures Position(MetroStations[28]) == 28
  {
  }

  lemma PositionOf29()
    ensures Position(MetroStations[29]) == 29
  {
  }

  lemma PositionOf30()
    ensures Position(MetroStations[30]) == 30
  {
  }

  lemma PositionOf31()
    ensures Position(MetroStations[31]) == 31
  {
  }

  lemma PositionOf32()
    ensures Position(MetroStations[32]) == 32
  {
  }

  lemma PositionOf33()
    ensures Position(MetroStations[33]) == 33
  {
  }

  lemma PositionOf34()
    ensures Position(MetroStations[34]) == 34
  {
  }

  lemma PositionOf35()
    ensures Position(MetroStations[35]) == 35
  {
  }

  lemma PositionOf36()
    ensures Position(MetroStations[36]) == 36
  {
  }

  lemma PositionOf37()
    ensures Position(MetroStations[37]) == 37
  {
  }

  lemma PositionOf38()
    ensures Position(MetroStations[38]) == 38
  {
  }

  lemma PositionOf39()
    ensures Position(MetroStations[39]) == 39
  {
  }

  /** Two different positions of the catalog hold different names. */
  lemma CatalogEntriesDiffer(a: int, b: int)
    requires 0 <= a < |MetroStations| && 0 <= b < |MetroStations| && a != b
    ensures MetroStations[a] != MetroStations[b]
  {
    CatalogDistinct();
    if a > b {
      assert MetroStations[b] != MetroStations[a];
    }
  }
}
