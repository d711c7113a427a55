/** The credential check of the Streamlit front end (streamlit-app/src/utils/dhan_helper.py). */
module Credentials {

  /** `validate_credentials`: accepts exactly when both the client id and the token are non-empty. */
  function ValidateCredentials(clientId: string, accessToken: string): (ok: bool)
    ensures ok <==> |clientId| > 0 && |accessToken| > 0
  {
    |clientId| > 0 && |accessToken| > 0
  }

  /** An empty client id is refused whatever the token. */
  lemma EmptyClientIdRefused(accessToken: string)
    ensures !ValidateCredentials("", accessToken)
  {
  }

  /** An empty token is refused whatever the client id. */
  lemma EmptyTokenRefused(clientId: string)
    ensures !ValidateCredentials(clientId, "")
  {
  }
}
