/** The weather record shapes: the current-conditions snapshot, the air-quality snapshot,
    one forecast day, and the location that bundles them. */
module WeatherTypes {
  /** The five air-quality bands, mildest first. */
  datatype AirLevel = Good | Fair | Moderate | Poor | VeryPoor

  datatype WeatherData = WeatherData(
    id: string, name: string, country: string,
    temperature: int, feelsLike: int, description: string,
    humidity: real, windSpeed: real, pressure: real, visibility: real,
    uvIndex: real, icon: string, timestamp: int)

  datatype AirQualityData = AirQualityData(
    aqi: int, co: real, no2: real, o3: real, so2: real, pm2_5: real, pm10: real,
    recommendation: string, level: AirLevel)

  datatype ForecastDay = ForecastDay(
    date: string, maxTemp: int, minTemp: int, description: string, icon: string,
    humidity: real, windSpeed: real, chanceOfRain: real)

  datatype LocationData = LocationData(
    id: string, name: string, country: string, lat: real, lon: real,
    weather: WeatherData, airQuality: AirQualityData, forecast: seq<ForecastDay>,
    isFavorite: bool)
}
