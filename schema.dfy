/**
 * The row types of the four tables (users, detection history, market prices,
 * weather data) and the insert shapes the store's writers accept. Timestamps
 * are milliseconds since the epoch; `null` columns are `None`.
 */
module Schema {

  import opened Wrappers

  datatype InsertUser = InsertUser(username: string, password: string)

  datatype User = User(id: string, username: string, password: string)

  datatype InsertDetection = InsertDetection(
    userId: Option<string>,
    imagePath: string,
    disease: string,
    malayalam: string,
    confidence: int,
    severity: string,
    treatment: string,
    malayalamTreatment: string,
    urgency: string)

  datatype DetectionHistory = DetectionHistory(
    id: string,
    userId: Option<string>,
    imagePath: string,
    disease: string,
    malayalam: string,
    confidence: int,
    severity: string,
    treatment: string,
    malayalamTreatment: string,
    urgency: string,
    createdAt: int)

  datatype InsertMarketPrice = InsertMarketPrice(
    cropName: string,
    malayalam: string,
    price: real,
    unit: string,
    market: string,
    district: string)

  datatype MarketPrice = MarketPrice(
    id: string,
    cropName: string,
    malayalam: string,
    price: real,
    unit: string,
    market: string,
    district: string,
    updatedAt: int)

  datatype InsertWeather = InsertWeather(
    location: string,
    district: string,
    temperature: real,
    humidity: real,
    rainfall: real,
    windSpeed: real,
    condition: string,
    advisory: Option<string>,
    malayalamAdvisory: Option<string>)

  datatype WeatherData = WeatherData(
    id: string,
    location: string,
    district: string,
    temperature: real,
    humidity: real,
    rainfall: real,
    windSpeed: real,
    condition: string,
    advisory: Option<string>,
    malayalamAdvisory: Option<string>,
    updatedAt: int)
}
