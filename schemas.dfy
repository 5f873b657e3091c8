/**
 * The request and response types the generation pipeline works with: the two
 * closed enumerations it keys its tables by, the structured fortune record and
 * the two responses. Only the fields the pipeline reads or fills are modelled.
 */
module Schemas {
  import opened Wrappers

  /** Lì xì denominations (50k, 100k, 200k, 500k and the special jackpot). */
  datatype LixiType = K50 | K100 | K200 | K500 | Special

  /** Life domains a fortune reading can focus on. */
  datatype FortuneMode = Random | TaiLoc | TinhDuyen | SucKhoe | CongDanh | GiaDao

  /** One fortune reading; every field is mandatory. */
  datatype FortuneData = FortuneData(
    title: string,
    rating: int,
    summary: string,
    detail: string,
    advice: string,
    luckyElement: string,
    emoji: string)

  /** The range a reading's `rating` is taken to be validated against: 1 to 5
      inclusive. The record's declaration is not part of this model, so this
      is an assumption about `FortuneData`'s validation. */
  predicate RatingInRange(fortune: FortuneData)
  {
    1 <= fortune.rating <= 5
  }

  datatype WishResponse = WishResponse(wishText: string, lixiType: LixiType)

  /** `drawnAt` is in milliseconds since the epoch. */
  datatype FortuneResponse = FortuneResponse(fortune: FortuneData, mode: FortuneMode, drawnAt: int)

  /** Python truthiness of an optional name: present and not empty. */
  predicate HasName(userName: Option<string>)
  {
    userName.Some? && userName.value != []
  }
}
