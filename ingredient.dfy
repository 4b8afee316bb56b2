/** A feed ingredient: inclusion limits, price and its seventeen nutrient
    values per kg. Identifiers are opaque (a UUID in the application). */
module Ingredients {
  import opened NutrientKeys

  type IngredientId = nat

  datatype IngredientGroup =
    | Grain
    | Protein
    | PlantByProducts
    | AnimalSource
    | Fat
    | Mineral
    | SupplementsAdditives
    | UserFeed

  datatype Ingredient = Ingredient(
    id: IngredientId,
    name: string,
    group: IngredientGroup,
    minPercent: real,
    maxPercent: real,
    pricePerKg: real,
    crudeProtein: real,
    metabolizableEnergy: real,
    lysine: real,
    methionine: real,
    threonine: real,
    calcium: real,
    availablePhosphorus: real,
    sodium: real,
    linoleicAcid: real,
    vitaminA: real,
    vitaminD3: real,
    vitaminE: real,
    manganese: real,
    zinc: real,
    copper: real,
    iron: real,
    selenium: real,
    extraNutrients: map<string, real>)
  {
    /** The nutrient value stored for one key (a plain field selection). */
    function Value(key: NutrientKey): real {
      match key
      case CrudeProtein => crudeProtein
      case MetabolizableEnergy => metabolizableEnergy
      case Lysine => lysine
      case Methionine => methionine
      case Threonine => threonine
      case Calcium => calcium
      case AvailablePhosphorus => availablePhosphorus
      case Sodium => sodium
      case LinoleicAcid => linoleicAcid
      case VitaminA => vitaminA
      case VitaminD3 => vitaminD3
      case VitaminE => vitaminE
      case Manganese => manganese
      case Zinc => zinc
      case Copper => copper
      case Iron => iron
      case Selenium => selenium
    }

    /** The same ingredient with the field for one key replaced. */
    function WithValue(key: NutrientKey, v: real): (r: Ingredient)
      ensures r.Value(key) == v
      ensures forall k :: k != key ==> r.Value(k) == Value(k)
      ensures r.id == id && r.name == name && r.group == group
      ensures r.minPercent == minPercent && r.maxPercent == maxPercent
      ensures r.pricePerKg == pricePerKg && r.extraNutrients == extraNutrients
    {
      match key
      case CrudeProtein => this.(crudeProtein := v)
      case MetabolizableEnergy => this.(metabolizableEnergy := v)
      case Lysine => this.(lysine := v)
      case Methionine => this.(methionine := v)
      case Threonine => this.(threonine := v)
      case Calcium => this.(calcium := v)
      case AvailablePhosphorus => this.(availablePhosphorus := v)
      case Sodium => this.(sodium := v)
      case LinoleicAcid => this.(linoleicAcid := v)
      case VitaminA => this.(vitaminA := v)
      case VitaminD3 => this.(vitaminD3 := v)
      case VitaminE => this.(vitaminE := v)
      case Manganese => this.(manganese := v)
      case Zinc => this.(zinc := v)
      case Copper => this.(copper := v)
      case Iron => this.(iron := v)
      case Selenium => this.(selenium := v)
    }
  }

  /** The ingredient the editor appends when the user adds a row: a user
      feed allowed between 0% and 10%, priced 20 000 per kg, with every
      nutrient value zero. */
  function NewIngredient(id: IngredientId): (r: Ingredient)
    ensures r.id == id && r.group == UserFeed
    ensures 0.0 == r.minPercent <= r.maxPercent == 10.0
    ensures r.pricePerKg == 20000.0
    ensures forall k :: r.Value(k) == 0.0
    ensures r.extraNutrients == map[]
  {
    Ingredient(
      id, "New Ingredient", UserFeed, 0.0, 10.0, 20000.0,
      0.0, 0.0, 0.0, 0.0, 0.0, 0.0, 0.0, 0.0, 0.0,
      0.0, 0.0, 0.0, 0.0, 0.0, 0.0, 0.0, 0.0,
      map[])
  }
}
