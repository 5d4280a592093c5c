/** The bot's fixed configuration: the product range and the currency label. */
module Config {
  /** The configured pie types, in menu order. */
  const PieTypes: seq<string> := ["Мясо", "Картошка", "Сосиска в тесте"]

  /** The currency label written after every amount. */
  const CurrencySymbol: string := "сум"
}
