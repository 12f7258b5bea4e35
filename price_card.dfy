/** The price card's display lookups: the AZADI coin codes spelled out,
    the English name for a Persian title, and the icon for a category. */
module PriceCard {
  import Routes

  /** The card's `type` prop. */
  datatype PriceType = CryptoType | GoldType | CurrencyType

  datatype Icon = Sparkles | DollarSign | Coins

  /** The table's entries for crypto instruments. */
  const CryptoNames: map<string, string> := map[
    "تتر" := "Tether",
    "بیت کوین" := "Bitcoin",
    "ریپل" := "Ripple",
    "اتریوم" := "Ethereum",
    "بایننس کوین" := "Binance Coin",
    "بیت کوین کش" := "Bitcoin Cash",
    "ترون" := "Tron",
    "لایت کوین" := "Litecoin",
    "دوج کوین" := "Dogecoin",
    "سولانا" := "Solana",
    "مونرو" := "Monero",
    "ایاس" := "EOS",
    "دش" := "Dash",
    "پولکادات" := "Polkadot",
    "تون کوین" := "Toncoin",
    "کاردانو" := "Cardano",
    "اوالانچ" := "Avalanche",
    "فایل کوین" := "Filecoin",
    "استلار" := "Stellar",
    "شیبا اینو" := "Shiba Inu",
    "وی چین" := "VeChain",
    "چین لینک" := "Chainlink",
    "متیک - پولیگان" := "Polygon",
    "کازموس" := "Cosmos",
    "یونی سواپ" := "Uniswap"
  ]

  /** The table's entries for gold and coins. */
  const GoldNames: map<string, string> := map[
    "سکه امامی" := "Emami Coin",
    "گرم طلا" := "Gold (1 Gram)",
    "انس طلا" := "Gold Ounce",
    "تمام سکه" := "Full Azadi Coin",
    "سکه ۱ گرمی" := "Azadi (1g)",
    "انس نقره" := "Silver Ounce",
    "مثقال طلا" := "Gold Mithqal",
    "ربع سکه" := "Azadi (1/4)",
    "نیم سکه" := "Azadi (1/2)"
  ]

  /** The table's entries for currencies. */
  const CurrencyNames: map<string, string> := map[
    "دلار آمریکا" := "US Dollar",
    "یورو" := "Euro",
    "پوند انگلیس" := "British Pound",
    "درهم امارات" := "UAE Dirham",
    "یوان چین" := "Chinese Yuan",
    "لیر ترکیه" := "Turkish Lira",
    "روبل روسیه" := "Russian Ruble",
    "دلار کانادا" := "Canadian Dollar",
    "فرانک سوئیس" := "Swiss Franc",
    "دلار صرافی ملی" := "National Exchange USD",
    "روپیه هند" := "Indian Rupee",
    "ریال عمان" := "Omani Rial",
    "افغانی" := "Afghan Afghani",
    "دینار کویت" := "Kuwaiti Dinar",
    "رینگیت مالزی" := "Malaysian Ringgit",
    "کرون دانمارک" := "Danish Krone",
    "منات آذربایجان" := "Azerbaijani Manat",
    "بات تایلند" := "Thai Baht",
    "کرون نروژ" := "Norwegian Krone",
    "کرون سوئد" := "Swedish Krona",
    "۱۰ ین ژاپن" := "Japanese Yen (10)",
    "دلار استرالیا" := "Australian Dollar",
    "دلار سنگاپور" := "Singapore Dollar"
  ]

  /** The card's title-to-English-name table, in the source's order. */
  const EnglishNames: map<string, string> := CryptoNames + GoldNames + CurrencyNames

  /** `formatSymbol`. */
  function FormatSymbol(symbol: string): string
  {
    if symbol == "AZADI1" then "AZADI (1)"
    else if symbol == "AZADI1_2" then "AZADI (1/2)"
    else if symbol == "AZADI1_4" then "AZADI (1/4)"
    else if symbol == "AZADI1G" then "AZADI (1g)"
    else symbol
  }

  /** `ENGLISH_NAMES[persianName] || persianName`. */
  function EnglishName(persianName: string): string
  {
    if persianName in EnglishNames && EnglishNames[persianName] != "" then EnglishNames[persianName]
    else persianName
  }

  /** `getIcon`. */
  function GetIcon(t: PriceType): Icon
  {
    match t
    case GoldType => Sparkles
    case CurrencyType => DollarSign
    case _ => Coins
  }

  /** The four AZADI codes are spelled out; every other symbol is shown as
      it is. */
  lemma FormatSymbolCases(symbol: string)
    ensures FormatSymbol("AZADI1") == "AZADI (1)"
    ensures FormatSymbol("AZADI1_2") == "AZADI (1/2)"
    ensures FormatSymbol("AZADI1_4") == "AZADI (1/4)"
    ensures FormatSymbol("AZADI1G") == "AZADI (1g)"
    ensures symbol !in ["AZADI1", "AZADI1_2", "AZADI1_4", "AZADI1G"] ==> FormatSymbol(symbol) == symbol
  {
  }

  /** Formatting a formatted symbol changes nothing more. */
  lemma FormatSymbolIdempotent(symbol: string)
    ensures FormatSymbol(FormatSymbol(symbol)) == FormatSymbol(symbol)
  {
  }

  /** Only symbols the server files under gold are ever rewritten. */
  lemma RewrittenSymbolsAreGold(symbol: string)
    ensures FormatSymbol(symbol) != symbol ==> Routes.IsGoldSymbol(symbol)
  {
    if FormatSymbol(symbol) != symbol {
      assert symbol in Routes.GoldSymbols;
      assert symbol !in Routes.CryptoSymbols by {
        forall k | 0 <= k < |Routes.CryptoSymbols| ensures Routes.CryptoSymbols[k] != symbol {
          assert |symbol| >= 6 && symbol[..5] == "AZADI";
        }
      }
    }
  }

  /** A title in the table gets its English name; any other title is shown
      as it is. */
  lemma EnglishNameLookup(persianName: string)
    ensures persianName in EnglishNames ==> EnglishName(persianName) == EnglishNames[persianName]
    ensures persianName !in EnglishNames ==> EnglishName(persianName) == persianName
  {
    NamesNonEmpty(persianName);
  }

  /** No entry of the table maps a title to the empty string, so the
      `||` fallback never hides a table entry. */
  lemma NamesNonEmpty(persianName: string)
    ensures persianName in EnglishNames ==> EnglishNames[persianName] != ""
  {
    CryptoNamesNonEmpty(persianName);
    GoldNamesNonEmpty(persianName);
    CurrencyNamesNonEmpty(persianName);
  }

  lemma CryptoNamesNonEmpty(persianName: string)
    ensures persianName in CryptoNames ==> CryptoNames[persianName] != ""
  {
  }

  lemma GoldNamesNonEmpty(persianName: string)
    ensures persianName in GoldNames ==> GoldNames[persianName] != ""
  {
  }

  lemma CurrencyNamesNonEmpty(persianName: string)
    ensures persianName in CurrencyNames ==> CurrencyNames[persianName] != ""
  {
  }

  /** Each category has its own icon: gold Sparkles, currency DollarSign,
      crypto Coins. */
  lemma IconsDistinct(a: PriceType, b: PriceType)
    ensures GetIcon(GoldType) == Sparkles && GetIcon(CurrencyType) == DollarSign && GetIcon(CryptoType) == Coins
    ensures a != b ==> GetIcon(a) != GetIcon(b)
  {
  }
}
