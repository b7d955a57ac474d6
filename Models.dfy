/** The server records the core reads and sends, with just the fields the logic uses,
    and the shape of an HTTP reply as the screens see it through Retrofit. */
module Models {
  import opened KotlinText

  datatype NutritionalNeeds = NutritionalNeeds(calories: int, carbs: int, protein: int, fat: int)

  datatype NutritionSummary = NutritionSummary(totalCalories: int, totalCarbs: int, totalProtein: int, totalFat: int)

  datatype MacroNutrients = MacroNutrients(carbs: int, protein: int, fat: int)

  /** A recipe as recommended or found by search; `title` is the app's `label`,
      `time` is in minutes and `totalWeight` (a Double on the JVM) in grams. */
  datatype Recipe = Recipe(
    title: string,
    image: string,
    calories: int,
    nutrients: MacroNutrients,
    sourceUrl: Option<string>,
    time: int,
    totalWeight: real,
    cuisineType: Option<seq<string>>,
    mealType: Option<seq<string>>,
    ingredients: Option<seq<string>>)

  /** A meal logged today, as the history endpoint reports it. */
  datatype Meal = Meal(
    foodName: string,
    calories: int,
    carbs: int,
    protein: int,
    fat: int,
    imageUrl: Option<string>,
    sourceUrl: Option<string>,
    mealTime: Option<string>)

  /** The body of the log-meal request. */
  datatype MealRequest = MealRequest(
    foodName: string,
    calories: int,
    carbs: int,
    protein: int,
    fat: int,
    imageUrl: string,
    sourceUrl: Option<string>)

  datatype HistoryData = HistoryData(summary: NutritionSummary, meals: seq<Meal>)

  /** `activityLevel` is the TDEE multiplier, a Double on the JVM. */
  datatype PhysicalData = PhysicalData(gender: int, height: int, weight: int, activityLevel: real)

  datatype HealthStats = HealthStats(bmrScore: int)

  datatype FullUserProfile = FullUserProfile(
    name: string,
    birthdate: Option<string>,
    physicalData: PhysicalData,
    allergies: seq<string>,
    nutritionalNeeds: NutritionalNeeds,
    healthStats: HealthStats)

  /** What the login exchange returns about the signed-in account. */
  datatype UserData = UserData(
    uid: string,
    name: Option<string>,
    isOnboardingCompleted: bool,
    nutritionalNeeds: Option<NutritionalNeeds>)

  /** The body of the update-profile request. */
  datatype PhysicalDataRequest = PhysicalDataRequest(
    name: string,
    birthdate: string,
    gender: int,
    height: int,
    weight: int,
    activityLevel: real,
    allergies: seq<string>)

  datatype RecognitionInfo = RecognitionInfo(predictedClass: string)

  /** The `data` of the recommendations reply; `recipes` may be absent. */
  datatype RecommendationData = RecommendationData(recipes: Option<seq<Recipe>>)

  /** The `data` of the text-search reply. */
  datatype SearchData = SearchData(recipes: seq<Recipe>)

  /** The `data` of the image-prediction reply. */
  datatype PredictData = PredictData(recognition: Option<RecognitionInfo>, recommendations: Option<SearchData>)

  /** The `data` of the chat reply. */
  datatype ChatReply = ChatReply(reply: string)

  /** The outcome of one HTTP call: either the call threw (connection error, timeout,
      parse failure) or a response arrived with a status code and, possibly, the
      `data` of its body (`body()?.data`). */
  datatype Reply<T> = Threw | Responded(code: int, data: Option<T>) {
    /** Retrofit's `isSuccessful`: a status code in 200..299. */
    predicate IsSuccessful() {
      Responded? && 200 <= code < 300
    }
  }
}
