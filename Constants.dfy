/** The application-wide constants of the client. */
module Constants {

  /** Page size of the search results. */
  const ROWS_PER_PAGE := 10

  /** localStorage key of the full session record returned by the platform. */
  const COMPLETE_APP_SETTINGS := "GOOGLE_SEARCH_DEMO_APP_COMPLETE_SETTINGS"

  /** localStorage key of the validated API catalog. */
  const GOOGLE_API_SETTINGS := "GOOGLE_API_SETTINGS"

  /** The three catalog names the application recognises. */
  const GOOGLE_SEARCH_API_NAME_NORMAL := "Google Web Search"
  const GOOGLE_SEARCH_API_NAME_YELLOW := "Google Web Search - yellow stuff only"
  const GOOGLE_SEARCH_API_NAME_NO_YELLOW := "Google Web Search - no yellow stuff"

  /** Placeholder for a value the platform did not supply. */
  const NA := "N/A"
}
