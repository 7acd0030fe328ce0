/** Option keys, defaults and fixed names of the integration. */
module Const {

  const DO_SEARCH_INTENT: string := "DoSearch"

  const CONF_SERVICE_NAME: string := "service_name"
  const CONF_BASE_URL: string := "base_url"
  const CONF_API_KEY: string := "api_key"
  const CONF_TIMEOUT: string := "timeout"
  const CONF_MODEL: string := "chat_model"
  const CONF_LANGUAGE_CODE: string := "lang_code"
  const CONF_SEARCH_ENABLED: string := "search_enabled"
  const CONF_SEARCH_SENTENCES: string := "search_sentences"
  const CONF_SEARCH_RESULT_PREFIX: string := "search_result_prefix"
  const CONF_STRIP_MARKDOWN: string := "strip_markdown"
  const CONF_VERIFY_SSL: string := "verify_ssl"

  const DEFAULT_SERVICE_NAME: string := "OpenWebUI"
  const DEFAULT_BASE_URL: string := "http://openwebui.homeassistant.local"
  const DEFAULT_TIMEOUT: int := 60
  const DEFAULT_MODEL: string := "llama2:latest"
  const DEFAULT_LANGUAGE_CODE: string := "en"
  const DEFAULT_SEARCH_ENABLED: bool := false
  /** Two sentence templates, one per line. */
  const DEFAULT_SEARCH_SENTENCES: string := "look up {query}" + "\n" + "search [the web | the internet] for {query}"
  const DEFAULT_SEARCH_RESULT_PREFIX: string := "Based on a search of the internet: "
  const DEFAULT_STRIP_MARKDOWN: bool := false
  const DEFAULT_VERIFY_SSL: bool := true
}
