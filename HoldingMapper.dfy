/** The wire-to-domain mapper: a field-for-field copy, and a list that is absent when empty. */
module HoldingMapper {
  import opened Wrappers
  import opened DomainModel
  import opened Dto
  import opened Collections

  /** `HoldingMapper.mapToDomain`. */
  function MapToDomain(dto: Option<HoldingDto>): (r: Option<Holding>)
    ensures r.None? <==> dto.None?
    ensures r.Some? ==>
              && r.value.symbol == dto.value.symbol
              && r.value.quantity == dto.value.quantity
              && r.value.ltp == dto.value.ltp
              && r.value.avgPrice == dto.value.avgPrice
              && r.value.close == dto.value.close
  {
    match dto
    case None => None
    case Some(d) => Some(Holding(d.symbol, d.quantity, d.ltp, d.avgPrice, d.close))
  }

  /** The per-element mapping of the list: an element of the list is never null. */
  function MapElement(d: HoldingDto): (r: Option<Holding>)
    ensures r.Some?
    ensures r.value == Holding(d.symbol, d.quantity, d.ltp, d.avgPrice, d.close)
  {
    MapToDomain(Some(d))
  }

  /** `HoldingMapper.mapToDomainList`: map every element, keeping the present results; an empty result becomes null. */
  function MapToDomainList(dtoList: Option<seq<HoldingDto>>): (r: Option<seq<Holding>>)
    ensures r.None? <==> dtoList.None? || |dtoList.value| == 0
    ensures r.Some? ==> |r.value| > 0
    ensures r.Some? ==>
              |r.value| == |dtoList.value|
              && forall i :: 0 <= i < |r.value| ==> Some(r.value[i]) == MapToDomain(Some(dtoList.value[i]))
  {
    match dtoList
    case None => None
    case Some(l) =>
      var mapped := MapNotNull(l, MapElement);
      if |mapped| > 0 then Some(mapped) else None
  }

  /** Nothing is lost in the copy: different records map to different holdings. */
  lemma MapToDomainInjective(a: Option<HoldingDto>, b: Option<HoldingDto>)
    requires MapToDomain(a) == MapToDomain(b)
    ensures a == b
  {
  }

  /** A list of records with every field absent still maps to a list of the same length. */
  lemma AllAbsentKept(n: nat)
    requires n > 0
    ensures var r := MapToDomainList(Some(seq(n, _ => HoldingDto(None, None, None, None, None))));
      r.Some? && |r.value| == n
      && forall i :: 0 <= i < n ==> r.value[i] == Holding(None, None, None, None, None)
  {
  }
}
