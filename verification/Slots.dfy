/** firmware/main/tariff.h: a day's prices in slots of a quarter of an hour. */
module Slots {

  const TARIFF_SLOTS: nat := 96
  const TARIFF_SLOT_MINUTES: nat := 15
  const TARIFF_NO_PRICE: int := -0x8000_0000_0000_0000

  type Prices = p: seq<int> | |p| == TARIFF_SLOTS witness seq(TARIFF_SLOTS, _ => TARIFF_NO_PRICE)
}
