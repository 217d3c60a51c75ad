/** The detailed Indonesian prefix table (Sumatera, Jawa & Banten, Bali & Nusa
    Tenggara): DetailedCodes gives each prefix code's entry, and one function per prefix
    gives the names under its suffix letters. Facts about concrete plates follow. */
module RegionTable {
  import opened Wrappers
  import opened PlateText
  import opened Region

  /** detailed_city_code_dict: a prefix code's entry, None for a code that is no key. */
  function DetailedCodes(p: Code): (r: Option<RegionEntry>)
  {
    match p
    case Two('B', 'L') => Some(RegionEntry(Some("Nanggroe Aceh Darussalam"), SuffixesBL))
    case Two('B', 'B') => Some(RegionEntry(Some("Sumatera Utara (Tapanuli)"), SuffixesBB))
    case Two('B', 'K') => Some(RegionEntry(Some("Sumatera Utara (Pesisir Timur)"), SuffixesBK))
    case Two('B', 'A') => Some(RegionEntry(Some("Sumatera Barat"), SuffixesBA))
    case Two('B', 'M') => Some(RegionEntry(Some("Riau"), SuffixesBM))
    case Two('B', 'H') => Some(RegionEntry(Some("Jambi"), SuffixesBH))
    case Two('B', 'G') => Some(RegionEntry(Some("Sumatera Selatan"), SuffixesBG))
    case Two('B', 'D') => Some(RegionEntry(Some("Bengkulu"), SuffixesBD))
    case Two('B', 'E') => Some(RegionEntry(Some("Lampung"), SuffixesBE))
    case Two('B', 'N') => Some(RegionEntry(Some("Kep. Bangka Belitung"), SuffixesBN))
    case Two('B', 'P') => Some(RegionEntry(Some("Kepulauan Riau"), SuffixesBP))
    case One('B') => Some(RegionEntry(Some("DKI Jakarta/Sekitarnya"), SuffixesB))
    case One('A') => Some(RegionEntry(Some("Banten"), SuffixesA))
    case One('D') => Some(RegionEntry(Some("Bandung Raya"), SuffixesD))
    case One('E') => Some(RegionEntry(Some("Eks Keresidenan Cirebon"), SuffixesE))
    case One('F') => Some(RegionEntry(Some("Eks Keresidenan Bogor"), SuffixesF))
    case One('T') => Some(RegionEntry(Some("Eks Keresidenan Karawang"), SuffixesT))
    case One('Z') => Some(RegionEntry(Some("Eks Keresidenan Priangan Timur"), SuffixesZ))
    case One('H') => Some(RegionEntry(Some("Eks Keresidenan Semarang"), SuffixesH))
    case One('G') => Some(RegionEntry(Some("Eks Keresidenan Pekalongan"), SuffixesG))
    case One('K') => Some(RegionEntry(Some("Eks Keresidenan Pati"), SuffixesK))
    case One('R') => Some(RegionEntry(Some("Eks Keresidenan Banyumas"), SuffixesR))
    case Two('A', 'A') => Some(RegionEntry(Some("Eks Keresidenan Kedu"), SuffixesAA))
    case Two('A', 'D') => Some(RegionEntry(Some("Eks Keresidenan Surakarta"), SuffixesAD))
    case Two('A', 'B') => Some(RegionEntry(Some("DI Yogyakarta"), SuffixesAB))
    case One('L') => Some(RegionEntry(Some("Kota Surabaya"), SuffixesL))
    case One('M') => Some(RegionEntry(Some("Eks Keresidenan Madura"), SuffixesM))
    case One('N') => Some(RegionEntry(Some("Eks Keresidenan Malang-Pasuruan"), SuffixesN))
    case One('P') => Some(RegionEntry(Some("Eks Keresidenan Besuki"), SuffixesP))
    case One('S') => Some(RegionEntry(Some("Eks Keresidenan Bojonegoro"), SuffixesS))
    case One('W') => Some(RegionEntry(Some("Gresik & Sidoarjo"), SuffixesW))
    case Two('A', 'E') => Some(RegionEntry(Some("Eks Keresidenan Madiun"), SuffixesAE))
    case Two('A', 'G') => Some(RegionEntry(Some("Eks Keresidenan Kediri"), SuffixesAG))
    case Two('D', 'K') => Some(RegionEntry(Some("Bali"), SuffixesDK))
    case Two('D', 'R') => Some(RegionEntry(Some("NTB (Lombok)"), SuffixesDR))
    case Two('E', 'A') => Some(RegionEntry(Some("NTB (Sumbawa)"), SuffixesEA))
    case Two('D', 'H') => Some(RegionEntry(Some("NTT (Timor)"), SuffixesDH))
    case Two('E', 'B') => Some(RegionEntry(Some("NTT (Flores)"), SuffixesEB))
    case Two('E', 'D') => Some(RegionEntry(Some("NTT (Sumba)"), SuffixesED))
    case _ => None
  }

  function SuffixesBL(c: char): (r: Option<string>)
    ensures r.Some? ==> IsUpper(c) && r != Some(Unknown)
  {
    match c
    case 'A' => Some("Kota Banda Aceh")
    case 'J' => Some("Kota Banda Aceh")
    case 'B' => Some("Gayo Lues")
    case 'C' => Some("Aceh Barat Daya")
    case 'D' => Some("Aceh Timur")
    case 'E' => Some("Aceh Barat")
    case 'F' => Some("Kota Langsa")
    case 'G' => Some("Aceh Tengah")
    case 'H' => Some("Aceh Tenggara")
    case 'I' => Some("Kota Subulussalam")
    case 'K' => Some("Aceh Utara")
    case 'Q' => Some("Aceh Utara")
    case 'L' => Some("Aceh Besar")
    case 'M' => Some("Kota Sabang")
    case 'N' => Some("Kota Lhokseumawe")
    case 'O' => Some("Pidie Jaya")
    case 'P' => Some("Pidie")
    case 'R' => Some("Aceh Singkil")
    case 'S' => Some("Simeulue")
    case 'T' => Some("Aceh Selatan")
    case 'U' => Some("Aceh Tamiang")
    case 'V' => Some("Nagan Raya")
    case 'W' => Some("Aceh Jaya")
    case 'Y' => Some("Bener Meriah")
    case 'Z' => Some("Bireuen")
    case _ => None
  }

  function SuffixesBB(c: char): (r: Option<string>)
    ensures r.Some? ==> IsUpper(c) && r != Some(Unknown)
  {
    match c
    case 'A' => Some("Kota Sibolga")
    case 'L' => Some("Kota Sibolga")
    case 'N' => Some("Kota Sibolga")
    case 'B' => Some("Tapanuli Utara")
    case 'C' => Some("Samosir")
    case 'D' => Some("Humbang Hasundutan")
    case 'E' => Some("Toba")
    case 'F' => Some("Kota Padang Sidempuan")
    case 'H' => Some("Kota Padang Sidempuan")
    case 'G' => Some("Tapanuli Selatan")
    case 'J' => Some("Padang Lawas Utara")
    case 'K' => Some("Padang Lawas")
    case 'M' => Some("Tapanuli Tengah")
    case 'Q' => Some("Nias Utara")
    case 'R' => Some("Mandailing Natal")
    case 'T' => Some("Kota Gunungsitoli")
    case 'U' => Some("Nias Barat")
    case 'V' => Some("Nias")
    case 'W' => Some("Nias Selatan")
    case 'Y' => Some("Dairi")
    case 'Z' => Some("Pakpak Bharat")
    case _ => None
  }

  function SuffixesBK(c: char): (r: Option<string>)
    ensures r.Some? ==> IsUpper(c) && r != Some(Unknown)
  {
    match c
    case 'A' => Some("Kota Medan")
    case 'B' => Some("Kota Medan")
    case 'C' => Some("Kota Medan")
    case 'D' => Some("Kota Medan")
    case 'E' => Some("Kota Medan")
    case 'F' => Some("Kota Medan")
    case 'G' => Some("Kota Medan")
    case 'H' => Some("Kota Medan")
    case 'I' => Some("Kota Medan")
    case 'K' => Some("Kota Medan")
    case 'L' => Some("Kota Medan")
    case 'J' => Some("Labuhanbatu Utara")
    case 'M' => Some("Deli Serdang")
    case 'N' => Some("Kota Tebing Tinggi")
    case 'O' => Some("Batubara")
    case 'P' => Some("Langkat")
    case 'Q' => Some("Kota Tanjung Balai")
    case 'R' => Some("Kota Binjai")
    case 'S' => Some("Karo")
    case 'T' => Some("Simalungun")
    case 'U' => Some("Simalungun")
    case 'V' => Some("Asahan")
    case 'W' => Some("Kota Pematang Siantar")
    case 'X' => Some("Serdang Bedagai")
    case 'Y' => Some("Labuhanbatu")
    case 'Z' => Some("Labuhanbatu Selatan")
    case _ => None
  }

  function SuffixesBA(c: char): (r: Option<string>)
    ensures r.Some? ==> IsUpper(c) && r != Some(Unknown)
  {
    match c
    case 'A' => Some("Kota Padang")
    case 'B' => Some("Kota Padang")
    case 'O' => Some("Kota Padang")
    case 'Q' => Some("Kota Padang")
    case 'C' => Some("Lima Puluh Kota")
    case 'X' => Some("Lima Puluh Kota")
    case 'D' => Some("Pasaman")
    case 'E' => Some("Tanah Datar")
    case 'F' => Some("Padang Pariaman")
    case 'G' => Some("Pesisir Selatan")
    case 'I' => Some("Pesisir Selatan")
    case 'H' => Some("Solok")
    case 'J' => Some("Kota Sawahlunto")
    case 'K' => Some("Sijunjung")
    case 'L' => Some("Kota Bukittinggi")
    case 'M' => Some("Kota Payakumbuh")
    case 'N' => Some("Kota Padang Panjang")
    case 'P' => Some("Kota Solok")
    case 'S' => Some("Pasaman Barat")
    case 'T' => Some("Agam")
    case 'Z' => Some("Agam")
    case 'U' => Some("Kepulauan Mentawai")
    case 'V' => Some("Dharmasraya")
    case 'W' => Some("Kota Pariaman")
    case 'Y' => Some("Solok Selatan")
    case _ => None
  }

  function SuffixesBM(c: char): (r: Option<string>)
    ensures r.Some? ==> IsUpper(c) && r != Some(Unknown)
  {
    match c
    case 'A' => Some("Kota Pekanbaru")
    case 'J' => Some("Kota Pekanbaru")
    case 'N' => Some("Kota Pekanbaru")
    case 'O' => Some("Kota Pekanbaru")
    case 'Q' => Some("Kota Pekanbaru")
    case 'T' => Some("Kota Pekanbaru")
    case 'V' => Some("Kota Pekanbaru")
    case 'B' => Some("Indragiri Hulu")
    case 'C' => Some("Pelalawan")
    case 'I' => Some("Pelalawan")
    case 'D' => Some("Bengkalis")
    case 'E' => Some("Bengkalis")
    case 'F' => Some("Kampar")
    case 'Z' => Some("Kampar")
    case 'G' => Some("Indragiri Hilir")
    case 'H' => Some("Kota Dumai")
    case 'R' => Some("Kota Dumai")
    case 'K' => Some("Kuantan Singingi")
    case 'X' => Some("Kuantan Singingi/Kep. Meranti")
    case 'M' => Some("Rokan Hulu")
    case 'U' => Some("Rokan Hulu")
    case 'P' => Some("Rokan Hilir")
    case 'W' => Some("Rokan Hilir")
    case 'S' => Some("Siak")
    case 'Y' => Some("Siak")
    case _ => None
  }

  function SuffixesBH(c: char): (r: Option<string>)
    ensures r.Some? ==> IsUpper(c) && r != Some(Unknown)
  {
    match c
    case 'A' => Some("Kota Jambi")
    case 'H' => Some("Kota Jambi")
    case 'M' => Some("Kota Jambi")
    case 'N' => Some("Kota Jambi")
    case 'Y' => Some("Kota Jambi")
    case 'Z' => Some("Kota Jambi")
    case 'B' => Some("Batanghari")
    case 'V' => Some("Batanghari")
    case 'C' => Some("Tebo")
    case 'W' => Some("Tebo")
    case 'D' => Some("Kerinci")
    case 'E' => Some("Tanjung Jabung Barat")
    case 'O' => Some("Tanjung Jabung Barat")
    case 'F' => Some("Merangin")
    case 'P' => Some("Merangin")
    case 'X' => Some("Merangin")
    case 'G' => Some("Muaro Jambi")
    case 'I' => Some("Muaro Jambi")
    case 'J' => Some("Tanjung Jabung Timur")
    case 'T' => Some("Tanjung Jabung Timur")
    case 'K' => Some("Bungo")
    case 'U' => Some("Bungo")
    case 'Q' => Some("Sarolangun")
    case 'S' => Some("Sarolangun")
    case 'R' => Some("Kota Sungai Penuh")
    case _ => None
  }

  function SuffixesBG(c: char): (r: Option<string>)
    ensures r.Some? ==> IsUpper(c) && r != Some(Unknown)
  {
    match c
    case 'A' => Some("Kota Palembang")
    case 'I' => Some("Kota Palembang")
    case 'M' => Some("Kota Palembang")
    case 'N' => Some("Kota Palembang")
    case 'O' => Some("Kota Palembang")
    case 'U' => Some("Kota Palembang")
    case 'X' => Some("Kota Palembang")
    case 'Z' => Some("Kota Palembang")
    case 'B' => Some("Musi Banyuasin")
    case 'C' => Some("Kota Prabumulih")
    case 'D' => Some("Muara Enim")
    case 'E' => Some("Lahat")
    case 'F' => Some("Ogan Komering Ulu")
    case 'G' => Some("Musi Rawas")
    case 'H' => Some("Kota Lubuk Linggau")
    case 'J' => Some("Banyuasin")
    case 'R' => Some("Banyuasin")
    case 'K' => Some("Ogan Komering Ilir")
    case 'P' => Some("Penukal Abab Lematang Ilir")
    case 'Q' => Some("Musi Rawas Utara")
    case 'S' => Some("Empat Lawang")
    case 'T' => Some("Ogan Ilir")
    case 'V' => Some("Ogan Komering Ulu Selatan")
    case 'W' => Some("Kota Pagaralam")
    case 'Y' => Some("Ogan Komering Ulu Timur")
    case _ => None
  }

  function SuffixesBD(c: char): (r: Option<string>)
    ensures r.Some? ==> IsUpper(c) && r != Some(Unknown)
  {
    match c
    case 'A' => Some("Kota Bengkulu")
    case 'C' => Some("Kota Bengkulu")
    case 'E' => Some("Kota Bengkulu")
    case 'I' => Some("Kota Bengkulu")
    case 'U' => Some("Kota Bengkulu")
    case 'V' => Some("Kota Bengkulu")
    case 'B' => Some("Bengkulu Selatan")
    case 'M' => Some("Bengkulu Selatan")
    case 'D' => Some("Bengkulu Utara")
    case 'Q' => Some("Bengkulu Utara")
    case 'S' => Some("Bengkulu Utara")
    case 'F' => Some("Rejang Lebong")
    case 'K' => Some("Rejang Lebong")
    case 'G' => Some("Kepahiang")
    case 'H' => Some("Lebong")
    case 'N' => Some("Muko Muko")
    case 'T' => Some("Muko Muko")
    case 'P' => Some("Seluma")
    case 'R' => Some("Seluma")
    case 'W' => Some("Kaur")
    case 'Y' => Some("Bengkulu Tengah")
    case _ => None
  }

  function SuffixesBE(c: char): (r: Option<string>)
    ensures r.Some? ==> IsUpper(c) && r != Some(Unknown)
  {
    match c
    case 'A' => Some("Kota Bandar Lampung")
    case 'B' => Some("Kota Bandar Lampung")
    case 'C' => Some("Kota Bandar Lampung")
    case 'D' => Some("Lampung Selatan")
    case 'E' => Some("Lampung Selatan")
    case 'O' => Some("Lampung Selatan")
    case 'F' => Some("Kota Metro")
    case 'G' => Some("Lampung Tengah")
    case 'H' => Some("Lampung Tengah")
    case 'I' => Some("Lampung Tengah")
    case 'J' => Some("Lampung Utara")
    case 'K' => Some("Lampung Utara")
    case 'L' => Some("Mesuji")
    case 'M' => Some("Lampung Barat")
    case 'N' => Some("Lampung Timur")
    case 'P' => Some("Lampung Timur")
    case 'Q' => Some("Tulang Bawang Barat")
    case 'R' => Some("Pesawaran")
    case 'S' => Some("Tulang Bawang")
    case 'T' => Some("Tulang Bawang")
    case 'U' => Some("Pringsewu")
    case 'V' => Some("Tanggamus")
    case 'Z' => Some("Tanggamus")
    case 'W' => Some("Way Kanan")
    case 'X' => Some("Pesisir Barat")
    case _ => None
  }

  function SuffixesBN(c: char): (r: Option<string>)
    ensures r.Some? ==> IsUpper(c) && r != Some(Unknown)
  {
    match c
    case 'A' => Some("Kota Pangkal Pinang")
    case 'P' => Some("Kota Pangkal Pinang")
    case 'B' => Some("Bangka")
    case 'Q' => Some("Bangka")
    case 'C' => Some("Bangka Tengah")
    case 'T' => Some("Bangka Tengah")
    case 'D' => Some("Bangka Barat")
    case 'R' => Some("Bangka Barat")
    case 'E' => Some("Bangka Selatan")
    case 'V' => Some("Bangka Selatan")
    case 'F' => Some("Belitung")
    case 'W' => Some("Belitung")
    case 'G' => Some("Belitung Timur")
    case 'X' => Some("Belitung Timur")
    case _ => None
  }

  function SuffixesBP(c: char): (r: Option<string>)
    ensures r.Some? ==> IsUpper(c) && r != Some(Unknown)
  {
    match c
    case 'A' => Some("Kota Tanjung Pinang")
    case 'P' => Some("Kota Tanjung Pinang")
    case 'T' => Some("Kota Tanjung Pinang")
    case 'W' => Some("Kota Tanjung Pinang")
    case 'B' => Some("Bintan")
    case 'C' => Some("Kota Batam")
    case 'D' => Some("Kota Batam")
    case 'E' => Some("Kota Batam")
    case 'F' => Some("Kota Batam")
    case 'G' => Some("Kota Batam")
    case 'H' => Some("Kota Batam")
    case 'I' => Some("Kota Batam")
    case 'J' => Some("Kota Batam")
    case 'M' => Some("Kota Batam")
    case 'O' => Some("Kota Batam")
    case 'Q' => Some("Kota Batam")
    case 'R' => Some("Kota Batam")
    case 'U' => Some("Kota Batam")
    case 'V' => Some("Kota Batam")
    case 'X' => Some("Kota Batam")
    case 'Z' => Some("Kota Batam")
    case 'K' => Some("Karimun")
    case 'L' => Some("Lingga")
    case 'N' => Some("Natuna")
    case 'S' => Some("Kepulauan Anambas")
    case _ => None
  }

  function SuffixesB(c: char): (r: Option<string>)
    ensures r.Some? ==> IsUpper(c) && r != Some(Unknown)
  {
    match c
    case 'B' => Some("Jakarta Barat")
    case 'H' => Some("Jakarta Barat")
    case 'P' => Some("Jakarta Pusat")
    case 'S' => Some("Jakarta Selatan")
    case 'D' => Some("Jakarta Selatan")
    case 'T' => Some("Jakarta Timur")
    case 'R' => Some("Jakarta Timur")
    case 'U' => Some("Jakarta Utara")
    case 'E' => Some("Kota Depok/Kab. Bogor")
    case 'F' => Some("Kabupaten Bekasi")
    case 'K' => Some("Kota Bekasi")
    case 'Z' => Some("Kota Depok (Cinere)")
    case 'J' => Some("Kab. Tangerang (Kelapa Dua)")
    case 'C' => Some("Kota Tangerang (Cikokol)")
    case 'V' => Some("Kota Tangerang (Ciledug)")
    case 'N' => Some("Kota Tangerang Selatan (Serpong)")
    case 'W' => Some("Kota Tangerang Selatan (Ciputat)")
    case _ => None
  }

  function SuffixesA(c: char): (r: Option<string>)
    ensures r.Some? ==> IsUpper(c) && r != Some(Unknown)
  {
    match c
    case 'A' => Some("Kota Serang")
    case 'B' => Some("Kota Serang")
    case 'C' => Some("Kota Serang")
    case 'D' => Some("Kota Serang")
    case 'E' => Some("Kabupaten Serang")
    case 'F' => Some("Kabupaten Serang")
    case 'G' => Some("Kabupaten Serang")
    case 'H' => Some("Kabupaten Serang")
    case 'I' => Some("Kabupaten Serang")
    case 'J' => Some("Pandeglang")
    case 'K' => Some("Pandeglang")
    case 'L' => Some("Pandeglang")
    case 'M' => Some("Pandeglang")
    case 'N' => Some("Lebak")
    case 'O' => Some("Lebak")
    case 'P' => Some("Lebak")
    case 'Q' => Some("Lebak")
    case 'R' => Some("Kota Cilegon")
    case 'S' => Some("Kota Cilegon")
    case 'T' => Some("Kota Cilegon")
    case 'U' => Some("Kota Cilegon")
    case 'V' => Some("Kab. Tangerang (Balaraja)")
    case 'W' => Some("Kab. Tangerang (Balaraja)")
    case 'X' => Some("Kab. Tangerang (Balaraja)")
    case 'Y' => Some("Kab. Tangerang (Balaraja)")
    case 'Z' => Some("Kab. Tangerang (Balaraja)")
    case _ => None
  }

  function SuffixesD(c: char): (r: Option<string>)
    ensures r.Some? ==> IsUpper(c) && r != Some(Unknown)
  {
    match c
    case 'A' => Some("Kota Bandung")
    case 'B' => Some("Kota Bandung")
    case 'C' => Some("Kota Bandung")
    case 'D' => Some("Kota Bandung")
    case 'E' => Some("Kota Bandung")
    case 'F' => Some("Kota Bandung")
    case 'G' => Some("Kota Bandung")
    case 'H' => Some("Kota Bandung")
    case 'I' => Some("Kota Bandung")
    case 'J' => Some("Kota Bandung")
    case 'K' => Some("Kota Bandung")
    case 'L' => Some("Kota Bandung")
    case 'M' => Some("Kota Bandung")
    case 'N' => Some("Kota Bandung")
    case 'O' => Some("Kota Bandung")
    case 'P' => Some("Kota Bandung")
    case 'Q' => Some("Kota Bandung")
    case 'R' => Some("Kota Bandung")
    case 'S' => Some("Kota Cimahi")
    case 'T' => Some("Kota Cimahi")
    case 'U' => Some("Bandung Barat")
    case 'X' => Some("Bandung Barat")
    case 'V' => Some("Kabupaten Bandung")
    case 'W' => Some("Kabupaten Bandung")
    case 'Y' => Some("Kabupaten Bandung")
    case 'Z' => Some("Kabupaten Bandung")
    case _ => None
  }

  function SuffixesE(c: char): (r: Option<string>)
    ensures r.Some? ==> IsUpper(c) && r != Some(Unknown)
  {
    match c
    case 'A' => Some("Kota Cirebon")
    case 'B' => Some("Kota Cirebon")
    case 'C' => Some("Kota Cirebon")
    case 'D' => Some("Kota Cirebon")
    case 'E' => Some("Kota Cirebon")
    case 'F' => Some("Kota Cirebon")
    case 'G' => Some("Kota Cirebon")
    case 'H' => Some("Kabupaten Cirebon")
    case 'I' => Some("Kabupaten Cirebon")
    case 'J' => Some("Kabupaten Cirebon")
    case 'K' => Some("Kabupaten Cirebon")
    case 'L' => Some("Kabupaten Cirebon")
    case 'M' => Some("Kabupaten Cirebon")
    case 'N' => Some("Kabupaten Cirebon")
    case 'O' => Some("Kabupaten Cirebon")
    case 'P' => Some("Indramayu")
    case 'Q' => Some("Indramayu")
    case 'R' => Some("Indramayu")
    case 'S' => Some("Indramayu")
    case 'T' => Some("Indramayu")
    case 'U' => Some("Majalengka")
    case 'V' => Some("Majalengka")
    case 'W' => Some("Majalengka")
    case 'X' => Some("Majalengka")
    case 'Y' => Some("Kuningan")
    case 'Z' => Some("Kuningan")
    case _ => None
  }

  function SuffixesF(c: char): (r: Option<string>)
    ensures r.Some? ==> IsUpper(c) && r != Some(Unknown)
  {
    match c
    case 'A' => Some("Kota Bogor")
    case 'B' => Some("Kota Bogor")
    case 'C' => Some("Kota Bogor")
    case 'D' => Some("Kota Bogor")
    case 'E' => Some("Kota Bogor")
    case 'F' => Some("Kabupaten Bogor")
    case 'G' => Some("Kabupaten Bogor")
    case 'H' => Some("Kabupaten Bogor")
    case 'I' => Some("Kabupaten Bogor")
    case 'J' => Some("Kabupaten Bogor")
    case 'K' => Some("Kabupaten Bogor")
    case 'L' => Some("Kabupaten Bogor")
    case 'M' => Some("Kabupaten Bogor")
    case 'N' => Some("Kabupaten Bogor")
    case 'P' => Some("Kabupaten Bogor")
    case 'R' => Some("Kabupaten Bogor")
    case 'O' => Some("Kota Sukabumi")
    case 'S' => Some("Kota Sukabumi")
    case 'T' => Some("Kota Sukabumi")
    case 'Q' => Some("Kabupaten Sukabumi")
    case 'U' => Some("Kabupaten Sukabumi")
    case 'V' => Some("Kabupaten Sukabumi")
    case 'W' => Some("Cianjur")
    case 'X' => Some("Cianjur")
    case 'Y' => Some("Cianjur")
    case 'Z' => Some("Cianjur")
    case _ => None
  }

  function SuffixesT(c: char): (r: Option<string>)
    ensures r.Some? ==> IsUpper(c) && r != Some(Unknown)
  {
    match c
    case 'A' => Some("Purwakarta")
    case 'B' => Some("Purwakarta")
    case 'C' => Some("Purwakarta")
    case 'I' => Some("Purwakarta")
    case 'J' => Some("Purwakarta")
    case 'D' => Some("Karawang")
    case 'E' => Some("Karawang")
    case 'F' => Some("Karawang")
    case 'G' => Some("Karawang")
    case 'H' => Some("Karawang")
    case 'K' => Some("Karawang")
    case 'L' => Some("Karawang")
    case 'M' => Some("Karawang")
    case 'N' => Some("Karawang")
    case 'O' => Some("Karawang")
    case 'P' => Some("Karawang")
    case 'Q' => Some("Karawang")
    case 'R' => Some("Karawang")
    case 'S' => Some("Karawang")
    case 'T' => Some("Subang")
    case 'U' => Some("Subang")
    case 'V' => Some("Subang")
    case 'W' => Some("Subang")
    case 'X' => Some("Subang")
    case 'Y' => Some("Subang")
    case 'Z' => Some("Subang")
    case _ => None
  }

  function SuffixesZ(c: char): (r: Option<string>)
    ensures r.Some? ==> IsUpper(c) && r != Some(Unknown)
  {
    match c
    case 'A' => Some("Sumedang")
    case 'B' => Some("Sumedang")
    case 'C' => Some("Sumedang")
    case 'D' => Some("Garut")
    case 'E' => Some("Garut")
    case 'F' => Some("Garut")
    case 'G' => Some("Garut")
    case 'H' => Some("Kota Tasikmalaya")
    case 'I' => Some("Kota Tasikmalaya")
    case 'J' => Some("Kota Tasikmalaya")
    case 'K' => Some("Kota Tasikmalaya")
    case 'L' => Some("Kota Tasikmalaya")
    case 'M' => Some("Kota Tasikmalaya")
    case 'N' => Some("Kabupaten Tasikmalaya")
    case 'O' => Some("Kabupaten Tasikmalaya")
    case 'P' => Some("Kabupaten Tasikmalaya")
    case 'Q' => Some("Kabupaten Tasikmalaya")
    case 'R' => Some("Kabupaten Tasikmalaya")
    case 'S' => Some("Kabupaten Tasikmalaya")
    case 'T' => Some("Ciamis")
    case 'V' => Some("Ciamis")
    case 'W' => Some("Ciamis")
    case 'U' => Some("Pangandaran")
    case 'X' => Some("Kota Banjar")
    case 'Y' => Some("Kota Banjar")
    case 'Z' => Some("Kota Banjar")
    case _ => None
  }

  function SuffixesH(c: char): (r: Option<string>)
    ensures r.Some? ==> IsUpper(c) && r != Some(Unknown)
  {
    match c
    case 'A' => Some("Kota Semarang")
    case 'F' => Some("Kota Semarang")
    case 'G' => Some("Kota Semarang")
    case 'H' => Some("Kota Semarang")
    case 'P' => Some("Kota Semarang")
    case 'Q' => Some("Kota Semarang")
    case 'R' => Some("Kota Semarang")
    case 'S' => Some("Kota Semarang")
    case 'W' => Some("Kota Semarang")
    case 'Y' => Some("Kota Semarang")
    case 'Z' => Some("Kota Semarang")
    case 'B' => Some("Kota Salatiga")
    case 'K' => Some("Kota Salatiga")
    case 'O' => Some("Kota Salatiga")
    case 'T' => Some("Kota Salatiga")
    case 'C' => Some("Kabupaten Semarang")
    case 'I' => Some("Kabupaten Semarang")
    case 'L' => Some("Kabupaten Semarang")
    case 'V' => Some("Kabupaten Semarang")
    case 'D' => Some("Kendal")
    case 'M' => Some("Kendal")
    case 'U' => Some("Kendal")
    case 'E' => Some("Demak")
    case 'J' => Some("Demak")
    case 'N' => Some("Demak")
    case _ => None
  }

  function SuffixesG(c: char): (r: Option<string>)
    ensures r.Some? ==> IsUpper(c) && r != Some(Unknown)
  {
    match c
    case 'A' => Some("Kota Pekalongan")
    case 'H' => Some("Kota Pekalongan")
    case 'S' => Some("Kota Pekalongan")
    case 'B' => Some("Kabupaten Pekalongan")
    case 'K' => Some("Kabupaten Pekalongan")
    case 'O' => Some("Kabupaten Pekalongan")
    case 'T' => Some("Kabupaten Pekalongan")
    case 'C' => Some("Batang")
    case 'L' => Some("Batang")
    case 'V' => Some("Batang")
    case 'D' => Some("Pemalang")
    case 'I' => Some("Pemalang")
    case 'M' => Some("Pemalang")
    case 'W' => Some("Pemalang")
    case 'E' => Some("Kota Tegal")
    case 'N' => Some("Kota Tegal")
    case 'Y' => Some("Kota Tegal")
    case 'F' => Some("Kabupaten Tegal")
    case 'P' => Some("Kabupaten Tegal")
    case 'Q' => Some("Kabupaten Tegal")
    case 'Z' => Some("Kabupaten Tegal")
    case 'G' => Some("Brebes")
    case 'J' => Some("Brebes")
    case 'R' => Some("Brebes")
    case 'U' => Some("Brebes")
    case _ => None
  }

  function SuffixesK(c: char): (r: Option<string>)
    ensures r.Some? ==> IsUpper(c) && r != Some(Unknown)
  {
    match c
    case 'A' => Some("Pati")
    case 'G' => Some("Pati")
    case 'H' => Some("Pati")
    case 'S' => Some("Pati")
    case 'U' => Some("Pati")
    case 'B' => Some("Kudus")
    case 'K' => Some("Kudus")
    case 'O' => Some("Kudus")
    case 'R' => Some("Kudus")
    case 'T' => Some("Kudus")
    case 'C' => Some("Jepara")
    case 'L' => Some("Jepara")
    case 'Q' => Some("Jepara")
    case 'V' => Some("Jepara")
    case 'D' => Some("Rembang")
    case 'I' => Some("Rembang")
    case 'M' => Some("Rembang")
    case 'W' => Some("Rembang")
    case 'E' => Some("Blora")
    case 'N' => Some("Blora")
    case 'Y' => Some("Blora")
    case 'F' => Some("Grobogan")
    case 'J' => Some("Grobogan")
    case 'P' => Some("Grobogan")
    case 'Z' => Some("Grobogan")
    case _ => None
  }

  function SuffixesR(c: char): (r: Option<string>)
    ensures r.Some? ==> IsUpper(c) && r != Some(Unknown)
  {
    match c
    case 'A' => Some("Banyumas")
    case 'E' => Some("Banyumas")
    case 'G' => Some("Banyumas")
    case 'H' => Some("Banyumas")
    case 'J' => Some("Banyumas")
    case 'R' => Some("Banyumas")
    case 'S' => Some("Banyumas")
    case 'B' => Some("Cilacap")
    case 'F' => Some("Cilacap")
    case 'K' => Some("Cilacap")
    case 'N' => Some("Cilacap")
    case 'P' => Some("Cilacap")
    case 'T' => Some("Cilacap")
    case 'C' => Some("Purbalingga")
    case 'L' => Some("Purbalingga")
    case 'Q' => Some("Purbalingga")
    case 'U' => Some("Purbalingga")
    case 'V' => Some("Purbalingga")
    case 'Z' => Some("Purbalingga")
    case 'D' => Some("Banjarnegara")
    case 'I' => Some("Banjarnegara")
    case 'M' => Some("Banjarnegara")
    case 'O' => Some("Banjarnegara")
    case 'W' => Some("Banjarnegara")
    case 'Y' => Some("Banjarnegara")
    case _ => None
  }

  function SuffixesAA(c: char): (r: Option<string>)
    ensures r.Some? ==> IsUpper(c) && r != Some(Unknown)
  {
    match c
    case 'A' => Some("Kota Magelang")
    case 'H' => Some("Kota Magelang")
    case 'S' => Some("Kota Magelang")
    case 'U' => Some("Kota Magelang")
    case 'B' => Some("Kabupaten Magelang")
    case 'G' => Some("Kabupaten Magelang")
    case 'K' => Some("Kabupaten Magelang")
    case 'O' => Some("Kabupaten Magelang")
    case 'T' => Some("Kabupaten Magelang")
    case 'C' => Some("Purworejo")
    case 'L' => Some("Purworejo")
    case 'Q' => Some("Purworejo")
    case 'V' => Some("Purworejo")
    case 'D' => Some("Kebumen")
    case 'J' => Some("Kebumen")
    case 'M' => Some("Kebumen")
    case 'W' => Some("Kebumen")
    case 'E' => Some("Temanggung")
    case 'N' => Some("Temanggung")
    case 'Y' => Some("Temanggung")
    case 'F' => Some("Wonosobo")
    case 'P' => Some("Wonosobo")
    case 'Z' => Some("Wonosobo")
    case _ => None
  }

  function SuffixesAD(c: char): (r: Option<string>)
    ensures r.Some? ==> IsUpper(c) && r != Some(Unknown)
  {
    match c
    case 'A' => Some("Kota Surakarta")
    case 'H' => Some("Kota Surakarta")
    case 'S' => Some("Kota Surakarta")
    case 'U' => Some("Kota Surakarta")
    case 'B' => Some("Sukoharjo")
    case 'K' => Some("Sukoharjo")
    case 'O' => Some("Sukoharjo")
    case 'T' => Some("Sukoharjo")
    case 'C' => Some("Klaten")
    case 'J' => Some("Klaten")
    case 'L' => Some("Klaten")
    case 'Q' => Some("Klaten")
    case 'V' => Some("Klaten")
    case 'D' => Some("Boyolali")
    case 'M' => Some("Boyolali")
    case 'W' => Some("Boyolali")
    case 'E' => Some("Sragen")
    case 'N' => Some("Sragen")
    case 'Y' => Some("Sragen")
    case 'F' => Some("Karanganyar")
    case 'P' => Some("Karanganyar")
    case 'Z' => Some("Karanganyar")
    case 'G' => Some("Wonogiri")
    case 'I' => Some("Wonogiri")
    case 'R' => Some("Wonogiri")
    case _ => None
  }

  function SuffixesAB(c: char): (r: Option<string>)
    ensures r.Some? ==> IsUpper(c) && r != Some(Unknown)
  {
    match c
    case 'A' => Some("Kota Yogyakarta")
    case 'F' => Some("Kota Yogyakarta")
    case 'H' => Some("Kota Yogyakarta")
    case 'I' => Some("Kota Yogyakarta")
    case 'S' => Some("Kota Yogyakarta")
    case 'B' => Some("Bantul")
    case 'G' => Some("Bantul")
    case 'J' => Some("Bantul")
    case 'K' => Some("Bantul")
    case 'T' => Some("Bantul")
    case 'C' => Some("Kulon Progo")
    case 'L' => Some("Kulon Progo")
    case 'O' => Some("Kulon Progo")
    case 'P' => Some("Kulon Progo")
    case 'V' => Some("Kulon Progo")
    case 'D' => Some("Gunungkidul")
    case 'M' => Some("Gunungkidul")
    case 'R' => Some("Gunungkidul")
    case 'W' => Some("Gunungkidul")
    case 'E' => Some("Sleman")
    case 'N' => Some("Sleman")
    case 'Q' => Some("Sleman")
    case 'U' => Some("Sleman")
    case 'X' => Some("Sleman")
    case 'Y' => Some("Sleman")
    case 'Z' => Some("Sleman")
    case _ => None
  }

  function SuffixesL(c: char): (r: Option<string>)
    ensures r.Some? ==> IsUpper(c) && r != Some(Unknown)
  {
    match c
    case _ => None
  }

  function SuffixesM(c: char): (r: Option<string>)
    ensures r.Some? ==> IsUpper(c) && r != Some(Unknown)
  {
    match c
    case 'A' => Some("Pamekasan")
    case 'B' => Some("Pamekasan")
    case 'C' => Some("Pamekasan")
    case 'D' => Some("Pamekasan")
    case 'E' => Some("Pamekasan")
    case 'F' => Some("Pamekasan")
    case 'G' => Some("Bangkalan")
    case 'H' => Some("Bangkalan")
    case 'I' => Some("Bangkalan")
    case 'J' => Some("Bangkalan")
    case 'K' => Some("Bangkalan")
    case 'L' => Some("Bangkalan")
    case 'M' => Some("Bangkalan")
    case 'N' => Some("Sampang")
    case 'O' => Some("Sampang")
    case 'P' => Some("Sampang")
    case 'Q' => Some("Sampang")
    case 'R' => Some("Sampang")
    case 'S' => Some("Sampang")
    case 'T' => Some("Sumenep")
    case 'U' => Some("Sumenep")
    case 'V' => Some("Sumenep")
    case 'W' => Some("Sumenep")
    case 'X' => Some("Sumenep")
    case 'Y' => Some("Sumenep")
    case 'Z' => Some("Sumenep")
    case _ => None
  }

  function SuffixesN(c: char): (r: Option<string>)
    ensures r.Some? ==> IsUpper(c) && r != Some(Unknown)
  {
    match c
    case 'A' => Some("Kota Malang")
    case 'B' => Some("Kota Malang")
    case 'C' => Some("Kota Malang")
    case 'D' => Some("Kota Malang")
    case 'E' => Some("Kabupaten Malang")
    case 'F' => Some("Kabupaten Malang")
    case 'G' => Some("Kabupaten Malang")
    case 'H' => Some("Kabupaten Malang")
    case 'I' => Some("Kabupaten Malang")
    case 'J' => Some("Kota Batu")
    case 'K' => Some("Kota Batu")
    case 'L' => Some("Kota Batu")
    case 'M' => Some("Kabupaten Probolinggo")
    case 'N' => Some("Kabupaten Probolinggo")
    case 'O' => Some("Kabupaten Probolinggo")
    case 'P' => Some("Kota Probolinggo")
    case 'Q' => Some("Kota Probolinggo")
    case 'R' => Some("Kota Probolinggo")
    case 'S' => Some("Lumajang")
    case 'T' => Some("Kabupaten Pasuruan")
    case 'U' => Some("Lumajang")
    case 'Y' => Some("Lumajang")
    case 'Z' => Some("Lumajang")
    case 'V' => Some("Kota Pasuruan")
    case 'W' => Some("Kota Pasuruan")
    case 'X' => Some("Kota Pasuruan")
    case _ => None
  }

  function SuffixesP(c: char): (r: Option<string>)
    ensures r.Some? ==> IsUpper(c) && r != Some(Unknown)
  {
    match c
    case 'A' => Some("Bondowoso")
    case 'B' => Some("Bondowoso")
    case 'C' => Some("Bondowoso")
    case 'D' => Some("Situbondo")
    case 'E' => Some("Situbondo")
    case 'F' => Some("Situbondo")
    case 'G' => Some("Jember")
    case 'H' => Some("Jember")
    case 'I' => Some("Jember")
    case 'J' => Some("Jember")
    case 'K' => Some("Jember")
    case 'L' => Some("Jember")
    case 'M' => Some("Jember")
    case 'N' => Some("Jember")
    case 'O' => Some("Jember")
    case 'P' => Some("Jember")
    case 'Q' => Some("Banyuwangi")
    case 'R' => Some("Banyuwangi")
    case 'S' => Some("Banyuwangi")
    case 'T' => Some("Banyuwangi")
    case 'U' => Some("Banyuwangi")
    case 'V' => Some("Banyuwangi")
    case 'W' => Some("Banyuwangi")
    case 'X' => Some("Banyuwangi")
    case 'Y' => Some("Banyuwangi")
    case 'Z' => Some("Banyuwangi")
    case _ => None
  }

  function SuffixesS(c: char): (r: Option<string>)
    ensures r.Some? ==> IsUpper(c) && r != Some(Unknown)
  {
    match c
    case 'A' => Some("Bojonegoro")
    case 'B' => Some("Bojonegoro")
    case 'C' => Some("Bojonegoro")
    case 'D' => Some("Bojonegoro")
    case 'E' => Some("Tuban")
    case 'F' => Some("Tuban")
    case 'G' => Some("Tuban")
    case 'H' => Some("Tuban")
    case 'I' => Some("Tuban")
    case 'J' => Some("Lamongan")
    case 'K' => Some("Lamongan")
    case 'L' => Some("Lamongan")
    case 'M' => Some("Lamongan")
    case 'N' => Some("Kabupaten Mojokerto")
    case 'P' => Some("Kabupaten Mojokerto")
    case 'Q' => Some("Kabupaten Mojokerto")
    case 'R' => Some("Kabupaten Mojokerto")
    case 'O' => Some("Jombang")
    case 'W' => Some("Jombang")
    case 'X' => Some("Jombang")
    case 'Y' => Some("Jombang")
    case 'Z' => Some("Jombang")
    case 'S' => Some("Kota Mojokerto")
    case 'T' => Some("Kota Mojokerto")
    case 'U' => Some("Kota Mojokerto")
    case 'V' => Some("Kota Mojokerto")
    case _ => None
  }

  function SuffixesW(c: char): (r: Option<string>)
    ensures r.Some? ==> IsUpper(c) && r != Some(Unknown)
  {
    match c
    case 'A' => Some("Gresik")
    case 'B' => Some("Gresik")
    case 'C' => Some("Gresik")
    case 'D' => Some("Gresik")
    case 'E' => Some("Gresik")
    case 'F' => Some("Gresik")
    case 'G' => Some("Gresik")
    case 'H' => Some("Gresik")
    case 'I' => Some("Gresik")
    case 'J' => Some("Gresik")
    case 'K' => Some("Gresik")
    case 'L' => Some("Gresik")
    case 'M' => Some("Gresik")
    case 'N' => Some("Sidoarjo")
    case 'O' => Some("Sidoarjo")
    case 'P' => Some("Sidoarjo")
    case 'Q' => Some("Sidoarjo")
    case 'R' => Some("Sidoarjo")
    case 'S' => Some("Sidoarjo")
    case 'T' => Some("Sidoarjo")
    case 'U' => Some("Sidoarjo")
    case 'V' => Some("Sidoarjo")
    case 'W' => Some("Sidoarjo")
    case 'X' => Some("Sidoarjo")
    case 'Y' => Some("Sidoarjo")
    case 'Z' => Some("Sidoarjo")
    case _ => None
  }

  function SuffixesAE(c: char): (r: Option<string>)
    ensures r.Some? ==> IsUpper(c) && r != Some(Unknown)
  {
    match c
    case 'A' => Some("Kota Madiun")
    case 'B' => Some("Kota Madiun")
    case 'C' => Some("Kota Madiun")
    case 'D' => Some("Kota Madiun")
    case 'E' => Some("Kabupaten Madiun")
    case 'F' => Some("Kabupaten Madiun")
    case 'G' => Some("Kabupaten Madiun")
    case 'H' => Some("Kabupaten Madiun")
    case 'I' => Some("Kabupaten Madiun")
    case 'J' => Some("Ngawi")
    case 'K' => Some("Ngawi")
    case 'L' => Some("Ngawi")
    case 'M' => Some("Ngawi")
    case 'N' => Some("Magetan")
    case 'O' => Some("Magetan")
    case 'P' => Some("Magetan")
    case 'Q' => Some("Magetan")
    case 'R' => Some("Magetan")
    case 'S' => Some("Ponorogo")
    case 'T' => Some("Ponorogo")
    case 'U' => Some("Ponorogo")
    case 'V' => Some("Ponorogo")
    case 'W' => Some("Ponorogo")
    case 'X' => Some("Pacitan")
    case 'Y' => Some("Pacitan")
    case 'Z' => Some("Pacitan")
    case _ => None
  }

  function SuffixesAG(c: char): (r: Option<string>)
    ensures r.Some? ==> IsUpper(c) && r != Some(Unknown)
  {
    match c
    case 'A' => Some("Kota Kediri")
    case 'B' => Some("Kota Kediri")
    case 'C' => Some("Kota Kediri")
    case 'D' => Some("Kota Kediri")
    case 'E' => Some("Kabupaten Kediri")
    case 'F' => Some("Kabupaten Kediri")
    case 'G' => Some("Kabupaten Kediri")
    case 'H' => Some("Kabupaten Kediri")
    case 'J' => Some("Kabupaten Kediri")
    case 'O' => Some("Kabupaten Kediri")
    case 'I' => Some("Kabupaten Blitar")
    case 'K' => Some("Kabupaten/Kota Blitar")
    case 'L' => Some("Kabupaten Blitar")
    case 'M' => Some("Kabupaten Blitar")
    case 'P' => Some("Kabupaten Blitar")
    case 'N' => Some("Kota Blitar")
    case 'Q' => Some("Kota Blitar")
    case 'R' => Some("Tulungagung")
    case 'S' => Some("Tulungagung")
    case 'T' => Some("Tulungagung")
    case 'U' => Some("Nganjuk")
    case 'V' => Some("Nganjuk")
    case 'W' => Some("Nganjuk")
    case 'X' => Some("Nganjuk")
    case 'Y' => Some("Trenggalek")
    case 'Z' => Some("Trenggalek")
    case _ => None
  }

  function SuffixesDK(c: char): (r: Option<string>)
    ensures r.Some? ==> IsUpper(c) && r != Some(Unknown)
  {
    match c
    case 'A' => Some("Kota Denpasar")
    case 'B' => Some("Kota Denpasar")
    case 'C' => Some("Kota Denpasar")
    case 'D' => Some("Kota Denpasar")
    case 'E' => Some("Kota Denpasar")
    case 'I' => Some("Kota Denpasar")
    case 'X' => Some("Kota Denpasar")
    case 'F' => Some("Badung")
    case 'J' => Some("Badung")
    case 'O' => Some("Badung")
    case 'Q' => Some("Badung")
    case 'G' => Some("Tabanan")
    case 'H' => Some("Tabanan")
    case 'K' => Some("Gianyar")
    case 'L' => Some("Gianyar")
    case 'M' => Some("Klungkung")
    case 'N' => Some("Klungkung")
    case 'P' => Some("Bangli")
    case 'R' => Some("Bangli")
    case 'S' => Some("Karangasem")
    case 'T' => Some("Karangasem")
    case 'U' => Some("Buleleng")
    case 'V' => Some("Buleleng")
    case 'W' => Some("Jembrana")
    case 'Z' => Some("Jembrana")
    case _ => None
  }

  function SuffixesDR(c: char): (r: Option<string>)
    ensures r.Some? ==> IsUpper(c) && r != Some(Unknown)
  {
    match c
    case 'A' => Some("Kota Mataram")
    case 'B' => Some("Kota Mataram")
    case 'C' => Some("Kota Mataram")
    case 'E' => Some("Kota Mataram")
    case 'F' => Some("Kota Mataram")
    case 'N' => Some("Kota Mataram")
    case 'O' => Some("Kota Mataram")
    case 'P' => Some("Kota Mataram")
    case 'R' => Some("Kota Mataram")
    case 'X' => Some("Kota Mataram")
    case 'D' => Some("Lombok Utara")
    case 'G' => Some("Lombok Utara")
    case 'M' => Some("Lombok Utara")
    case 'H' => Some("Lombok Barat")
    case 'J' => Some("Lombok Barat")
    case 'K' => Some("Lombok Barat")
    case 'T' => Some("Lombok Barat")
    case 'W' => Some("Lombok Barat")
    case 'L' => Some("Lombok Timur")
    case 'Q' => Some("Lombok Timur")
    case 'Y' => Some("Lombok Timur")
    case 'S' => Some("Lombok Tengah")
    case 'U' => Some("Lombok Tengah")
    case 'V' => Some("Lombok Tengah")
    case 'Z' => Some("Lombok Tengah")
    case _ => None
  }

  function SuffixesEA(c: char): (r: Option<string>)
    ensures r.Some? ==> IsUpper(c) && r != Some(Unknown)
  {
    match c
    case 'A' => Some("Sumbawa")
    case 'C' => Some("Sumbawa")
    case 'D' => Some("Sumbawa")
    case 'E' => Some("Sumbawa")
    case 'F' => Some("Sumbawa")
    case 'P' => Some("Sumbawa")
    case 'H' => Some("Sumbawa Barat")
    case 'K' => Some("Sumbawa Barat")
    case 'L' => Some("Kota Bima")
    case 'S' => Some("Kota Bima")
    case 'M' => Some("Dompu")
    case 'N' => Some("Dompu")
    case 'Q' => Some("Dompu")
    case 'R' => Some("Dompu")
    case 'T' => Some("Dompu")
    case 'W' => Some("Bima")
    case 'X' => Some("Bima")
    case 'Y' => Some("Bima")
    case 'Z' => Some("Bima")
    case _ => None
  }

  function SuffixesDH(c: char): (r: Option<string>)
    ensures r.Some? ==> IsUpper(c) && r != Some(Unknown)
  {
    match c
    case 'A' => Some("Kota Kupang")
    case 'H' => Some("Kota Kupang")
    case 'K' => Some("Kota Kupang")
    case 'B' => Some("Kupang")
    case 'N' => Some("Kupang")
    case 'C' => Some("Timor Tengah Selatan")
    case 'D' => Some("Timor Tengah Utara")
    case 'M' => Some("Timor Tengah Utara")
    case 'E' => Some("Belu")
    case 'T' => Some("Belu")
    case 'F' => Some("Sabu Raijua")
    case 'G' => Some("Rote Ndao")
    case 'J' => Some("Malaka")
    case _ => None
  }

  function SuffixesEB(c: char): (r: Option<string>)
    ensures r.Some? ==> IsUpper(c) && r != Some(Unknown)
  {
    match c
    case 'A' => Some("Ende")
    case 'B' => Some("Sikka")
    case 'C' => Some("Flores Timur")
    case 'D' => Some("Ngada")
    case 'E' => Some("Manggarai")
    case 'F' => Some("Lembata")
    case 'G' => Some("Manggarai Barat")
    case 'H' => Some("Nagekeo")
    case 'J' => Some("Alor")
    case 'K' => Some("Alor")
    case 'P' => Some("Manggarai Timur")
    case _ => None
  }

  function SuffixesED(c: char): (r: Option<string>)
    ensures r.Some? ==> IsUpper(c) && r != Some(Unknown)
  {
    match c
    case 'A' => Some("Sumba Timur")
    case 'B' => Some("Sumba Barat")
    case 'C' => Some("Sumba Barat Daya")
    case 'D' => Some("Sumba Tengah")
    case _ => None
  }

  /** The suffix letters of one prefix are upper-case and none of its names is "Unknown". */
  ghost predicate LettersChecked(f: char -> Option<string>)
  {
    forall c :: f(c).Some? ==> IsUpper(c) && f(c) != Some(Unknown)
  }

  // Each prefix's letter check, lifted from its function's contract to the predicate one
  // prefix at a time, which keeps the proof of AllLettersChecked small.

  lemma LettersBL()
    ensures LettersChecked(SuffixesBL)
  {
  }

  lemma LettersBB()
    ensures LettersChecked(SuffixesBB)
  {
  }

  lemma LettersBK()
    ensures LettersChecked(SuffixesBK)
  {
  }

  lemma LettersBA()
    ensures LettersChecked(SuffixesBA)
  {
  }

  lemma LettersBM()
    ensures LettersChecked(SuffixesBM)
  {
  }

  lemma LettersBH()
    ensures LettersChecked(SuffixesBH)
  {
  }

  lemma LettersBG()
    ensures LettersChecked(SuffixesBG)
  {
  }

  lemma LettersBD()
    ensures LettersChecked(SuffixesBD)
  {
  }

  lemma LettersBE()
    ensures LettersChecked(SuffixesBE)
  {
  }

  lemma LettersBN()
    ensures LettersChecked(SuffixesBN)
  {
  }

  lemma LettersBP()
    ensures LettersChecked(SuffixesBP)
  {
  }

  lemma LettersB()
    ensures LettersChecked(SuffixesB)
  {
  }

  lemma LettersA()
    ensures LettersChecked(SuffixesA)
  {
  }

  lemma LettersD()
    ensures LettersChecked(SuffixesD)
  {
  }

  lemma LettersE()
    ensures LettersChecked(SuffixesE)
  {
  }

  lemma LettersF()
    ensures LettersChecked(SuffixesF)
  {
  }

  lemma LettersT()
    ensures LettersChecked(SuffixesT)
  {
  }

  lemma LettersZ()
    ensures LettersChecked(SuffixesZ)
  {
  }

  lemma LettersH()
    ensures LettersChecked(SuffixesH)
  {
  }

  lemma LettersG()
    ensures LettersChecked(SuffixesG)
  {
  }

  lemma LettersK()
    ensures LettersChecked(SuffixesK)
  {
  }

  lemma LettersR()
    ensures LettersChecked(SuffixesR)
  {
  }

  lemma LettersAA()
    ensures LettersChecked(SuffixesAA)
  {
  }

  lemma LettersAD()
    ensures LettersChecked(SuffixesAD)
  {
  }

  lemma LettersAB()
    ensures LettersChecked(SuffixesAB)
  {
  }

  lemma LettersL()
    ensures LettersChecked(SuffixesL)
  {
  }

  lemma LettersM()
    ensures LettersChecked(SuffixesM)
  {
  }

  lemma LettersN()
    ensures LettersChecked(SuffixesN)
  {
  }

  lemma LettersP()
    ensures LettersChecked(SuffixesP)
  {
  }

  lemma LettersS()
    ensures LettersChecked(SuffixesS)
  {
  }

  lemma LettersW()
    ensures LettersChecked(SuffixesW)
  {
  }

  lemma LettersAE()
    ensures LettersChecked(SuffixesAE)
  {
  }

  lemma LettersAG()
    ensures LettersChecked(SuffixesAG)
  {
  }

  lemma LettersDK()
    ensures LettersChecked(SuffixesDK)
  {
  }

  lemma LettersDR()
    ensures LettersChecked(SuffixesDR)
  {
  }

  lemma LettersEA()
    ensures LettersChecked(SuffixesEA)
  {
  }

  lemma LettersDH()
    ensures LettersChecked(SuffixesDH)
  {
  }

  lemma LettersEB()
    ensures LettersChecked(SuffixesEB)
  {
  }

  lemma LettersED()
    ensures LettersChecked(SuffixesED)
  {
  }

  /** Every key is one or two upper-case letters and every entry has a default. */
  lemma TableWellFormed()
    ensures WellFormed(DetailedCodes)
  {
    AllLettersChecked();
  }

  /** No entry names a region "Unknown". */
  lemma TableNamesKnown()
    ensures NamesKnown(DetailedCodes)
  {
    AllLettersChecked();
  }

  lemma AllLettersChecked()
    ensures forall p :: DetailedCodes(p).Some? ==> LettersChecked(DetailedCodes(p).value.suffix)
  {
    LettersBL();
    LettersBB();
    LettersBK();
    LettersBA();
    LettersBM();
    LettersBH();
    LettersBG();
    LettersBD();
    LettersBE();
    LettersBN();
    LettersBP();
    LettersB();
    LettersA();
    LettersD();
    LettersE();
    LettersF();
    LettersT();
    LettersZ();
    LettersH();
    LettersG();
    LettersK();
    LettersR();
    LettersAA();
    LettersAD();
    LettersAB();
    LettersL();
    LettersM();
    LettersN();
    LettersP();
    LettersS();
    LettersW();
    LettersAE();
    LettersAG();
    LettersDK();
    LettersDR();
    LettersEA();
    LettersDH();
    LettersEB();
    LettersED();
  }

  /** Prefix L has a default and no suffix letters, and no two-letter key starts with L:
      every plate whose clean text starts with L resolves to "Kota Surabaya". */
  lemma PrefixLIsSurabaya(plate: string)
    requires Sanitize(plate) != [] && Sanitize(plate)[0] == 'L'
    ensures Resolve(plate, DetailedCodes) == "Kota Surabaya"
  {
  }
}
