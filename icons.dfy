/** The icon lookups that DestinationCard, ItineraryPreview and
    AIItineraryPreview each define identically: a fixed table from an
    activity category or an accommodation type to an emoji, with a
    fallback for keys the table does not hold. */
module Icons {
  /** The emoji, named by what they picture. */
  datatype Icon =
    | ClassicalBuilding | ForkAndKnife | PerformingArts | ShoppingBags
    | EvergreenTree | ArtistPalette | Meditation | RoundPushpin
    | HotelBuilding | HouseBuilding | HouseWithGarden | BeachWithUmbrella | HouseBuildings

  const CategoryTable: map<string, Icon> := map[
    "sightseeing" := ClassicalBuilding,
    "dining" := ForkAndKnife,
    "entertainment" := PerformingArts,
    "shopping" := ShoppingBags,
    "outdoor" := EvergreenTree,
    "cultural" := ArtistPalette,
    "relaxation" := Meditation
  ]

  const AccommodationTable: map<string, Icon> := map[
    "hotel" := HotelBuilding,
    "hostel" := HouseBuilding,
    "airbnb" := HouseWithGarden,
    "resort" := BeachWithUmbrella,
    "guesthouse" := HouseBuildings
  ]

  /** `getCategoryIcon`: the table's icon, or the pushpin for any other
      category. The pushpin is shown exactly for unknown categories, and
      different known categories get different icons. */
  function CategoryIcon(category: string): (r: Icon)
    ensures r == RoundPushpin <==> category !in CategoryTable
    ensures category in CategoryTable ==> r == CategoryTable[category]
  {
    if category in CategoryTable then CategoryTable[category] else RoundPushpin
  }

  /** `getAccommodationIcon`: the table's icon, or the hotel for any other
      type, so the hotel icon does not tell a hotel from an unknown type. */
  function AccommodationIcon(kind: string): (r: Icon)
    ensures r == HotelBuilding <==> kind == "hotel" || kind !in AccommodationTable
    ensures kind in AccommodationTable ==> r == AccommodationTable[kind]
  {
    if kind in AccommodationTable then AccommodationTable[kind] else HotelBuilding
  }

  /** Known categories never share an icon. */
  lemma CategoryIconInjective(a: string, b: string)
    requires a in CategoryTable && b in CategoryTable && a != b
    ensures CategoryIcon(a) != CategoryIcon(b)
  {
  }

  /** Known accommodation types never share an icon either. */
  lemma AccommodationIconInjective(a: string, b: string)
    requires a in AccommodationTable && b in AccommodationTable && a != b
    ensures AccommodationIcon(a) != AccommodationIcon(b)
  {
  }
}
