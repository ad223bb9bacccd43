/**
 * The Mollie routes' configuration helpers and request checks: the redirect
 * and webhook URLs built from the environment, the payment data sent to
 * Mollie, the error response of a failed creation, and the payment-id check.
 */
module MollieRoutes {
  import opened Js

  const DEFAULT_FRONTEND_URL := "http://localhost:5173"
  const SUCCESS_PATH := "/success"
  const ID_QUERY := "?mollie_id="
  const WEBHOOK_PATH := "/webhooks/mollie"
  const PLACEHOLDER_DOMAIN := "yourdomain.com"

  /** `process.env.FRONTEND_URL || "http://localhost:5173"`: never empty. */
  function FrontendUrl(env: Value<string>): (url: string)
    ensures url != ""
    ensures Truthy(env) ==> url == env.value
    ensures !Truthy(env) ==> url == DEFAULT_FRONTEND_URL
  {
    OrElse(env, DEFAULT_FRONTEND_URL)
  }

  /**
   * `getRedirectUrl(paymentId = null)`: the frontend's success page, with the
   * payment id as the `mollie_id` query parameter when the id is truthy.
   */
  function GetRedirectUrl(frontendEnv: Value<string>, paymentId: Value<string>): (url: string)
    ensures FrontendUrl(frontendEnv) + SUCCESS_PATH <= url
    ensures !Truthy(paymentId) ==> url == FrontendUrl(frontendEnv) + SUCCESS_PATH
    ensures Truthy(paymentId) ==> |url| > |paymentId.value| && url[|url| - |paymentId.value|..] == paymentId.value
  {
    var frontendUrl := FrontendUrl(frontendEnv);
    if Truthy(paymentId) then frontendUrl + SUCCESS_PATH + ID_QUERY + paymentId.value
    else frontendUrl + SUCCESS_PATH
  }

  /** The `mollie_id` a success-page URL carries, or `null` when it has none. */
  function MollieIdParam(url: string, frontendUrl: string): Value<string> {
    var prefix := frontendUrl + SUCCESS_PATH + ID_QUERY;
    if prefix <= url && |url| > |prefix| then Defined(url[|prefix|..]) else Null
  }

  /** The redirect URL hands back exactly the payment id it was built with. */
  lemma RedirectUrlCarriesId(frontendEnv: Value<string>, paymentId: Value<string>)
    ensures MollieIdParam(GetRedirectUrl(frontendEnv, paymentId), FrontendUrl(frontendEnv))
         == if Truthy(paymentId) then paymentId else Null
  {
    var frontendUrl := FrontendUrl(frontendEnv);
    var prefix := frontendUrl + SUCCESS_PATH + ID_QUERY;
    var url := GetRedirectUrl(frontendEnv, paymentId);
    if Truthy(paymentId) {
      assert url == prefix + paymentId.value;
      assert url[|prefix|..] == paymentId.value;
    } else {
      assert |url| < |prefix|;
    }
  }

  /**
   * `getWebhookUrl()`: `null` when `WEBHOOK_URL` is unset, empty or mentions
   * the placeholder domain; otherwise the configured URL with the Mollie
   * webhook path appended. Never `undefined`.
   */
  function GetWebhookUrl(env: Value<string>): (url: Value<string>)
    ensures !url.Undefined?
    ensures url.Defined? ==> |url.value| > |WEBHOOK_PATH| && url.value[|url.value| - |WEBHOOK_PATH|..] == WEBHOOK_PATH
    ensures url.Defined? ==> Truthy(url)
  {
    if !Truthy(env) || Includes(env.value, PLACEHOLDER_DOMAIN) then Null
    else Defined(env.value + WEBHOOK_PATH)
  }

  /**
   * The webhook URL is `null` exactly for an unset or empty setting or one with
   * the placeholder domain at some position; otherwise it is a non-empty base
   * free of the placeholder, followed by the webhook path.
   */
  lemma WebhookUrlShape(env: Value<string>)
    ensures GetWebhookUrl(env).Null? <==>
      (!Truthy(env) || exists i :: OccursAt(env.value, PLACEHOLDER_DOMAIN, i))
    ensures var url := GetWebhookUrl(env);
      url.Defined? ==>
        var base := url.value[..|url.value| - |WEBHOOK_PATH|];
        && url.value == base + WEBHOOK_PATH
        && base == env.value
        && base != ""
        && forall i :: !OccursAt(base, PLACEHOLDER_DOMAIN, i)
  {
    if Truthy(env) {
      IncludesIff(env.value, PLACEHOLDER_DOMAIN);
      var url := GetWebhookUrl(env);
      if url.Defined? {
        assert url.value[..|url.value| - |WEBHOOK_PATH|] == env.value;
      }
    }
  }

  /** The `amount` object sent to Mollie. */
  datatype Amount = Amount(currency: string, value: string)

  /**
   * The object passed to `mollieClient.payments.create`; `webhookUrl` is
   * `Undefined` when the key is absent.
   */
  datatype PaymentData = PaymentData(
    amount: Amount,
    description: string,
    redirectUrl: string,
    orderId: string,
    webhookUrl: Value<string>)

  /**
   * The payment data of `POST /create-payment/mollie`, built and then given a
   * `webhookUrl` key only when the webhook URL is configured. `amountValue` is
   * the formatted amount, `orderId` the generated order id.
   */
  method BuildPaymentData(amountValue: string, description: Value<string>, orderId: string, frontendEnv: Value<string>, webhookEnv: Value<string>) returns (data: PaymentData)
    ensures data.amount == Amount("EUR", amountValue)
    ensures data.description == OrElse(description, "Payment")
    ensures data.redirectUrl == FrontendUrl(frontendEnv) + SUCCESS_PATH
    ensures data.orderId == orderId
    ensures data.webhookUrl.Defined? <==> GetWebhookUrl(webhookEnv).Defined?
    ensures data.webhookUrl.Defined? ==> data.webhookUrl == GetWebhookUrl(webhookEnv)
    ensures !data.webhookUrl.Null?
  {
    data := PaymentData(
      Amount("EUR", amountValue),
      OrElse(description, "Payment"),
      GetRedirectUrl(frontendEnv, Null),
      orderId,
      Undefined);
    var webhookUrl := GetWebhookUrl(webhookEnv);
    if Truthy(webhookUrl) {
      data := data.(webhookUrl := webhookUrl);
    }
  }

  /** The JSON body of the 500 response of a failed Mollie payment creation. */
  datatype CreationError = CreationError(status: int, error: string, details: Value<string>, field: string)

  /**
   * The `catch` of `POST /create-payment/mollie`: a configuration message for
   * an error on `redirectUrl` or `webhookUrl`, a generic one otherwise, and the
   * offending field or `"unknown"`.
   */
  method DescribeCreationError(errField: Value<string>, errMessage: Value<string>, frontendEnv: Value<string>, webhookEnv: Value<string>) returns (res: CreationError)
    ensures res.status == 500
    ensures res.error == "Invalid redirect URL configuration" <==> errField == Defined("redirectUrl")
    ensures res.error == "Invalid webhook URL configuration" <==> errField == Defined("webhookUrl")
    ensures res.error == "Mollie payment failed" <==> errField != Defined("redirectUrl") && errField != Defined("webhookUrl")
    ensures errField == Defined("redirectUrl") ==>
      res.details == Defined("The redirect URL is not valid. Make sure FRONTEND_URL is set to a valid URL. Current: " + FrontendUrl(frontendEnv))
    ensures errField == Defined("webhookUrl") ==>
      res.details == Defined("The webhook URL is not valid. Current: " + OrElse(GetWebhookUrl(webhookEnv), "Not set"))
    ensures errField != Defined("redirectUrl") && errField != Defined("webhookUrl") ==> res.details == errMessage
    ensures Truthy(errField) ==> res.field == errField.value
    ensures !Truthy(errField) ==> res.field == "unknown"
  {
    var errorMessage := "Mollie payment failed";
    var errorDetails := errMessage;
    if errField == Defined("redirectUrl") {
      errorMessage := "Invalid redirect URL configuration";
      errorDetails := Defined("The redirect URL is not valid. Make sure FRONTEND_URL is set to a valid URL. Current: " + FrontendUrl(frontendEnv));
    } else if errField == Defined("webhookUrl") {
      errorMessage := "Invalid webhook URL configuration";
      errorDetails := Defined("The webhook URL is not valid. Current: " + OrElse(GetWebhookUrl(webhookEnv), "Not set"));
    }
    res := CreationError(500, errorMessage, errorDetails, OrElse(errField, "unknown"));
  }

  /** The JSON body of the 400 response to a malformed payment id. */
  datatype IdError = IdError(status: int, error: string, details: string)

  /**
   * The payment-id check of `GET /mollie-session/:paymentId`: an id is passed
   * on to Mollie exactly when it is non-empty and has no brace; the separate
   * test for the literal `{id}` is subsumed by the brace test.
   */
  function CheckPaymentId(paymentId: string): (r: Result<string, IdError>)
    ensures r.Ok? <==> paymentId != "" && '{' !in paymentId && '}' !in paymentId
    ensures r.Ok? ==> r.value == paymentId
    ensures r.Err? ==> r.error.status == 400 && r.error.error == "Invalid payment ID format"
    ensures r.Err? ==> r.error.details == "Received payment ID: " + paymentId
  {
    IncludesChar(paymentId, '{');
    IncludesChar(paymentId, '}');
    if paymentId == "" || paymentId == "{id}" || Includes(paymentId, "{") || Includes(paymentId, "}") then
      Err(IdError(400, "Invalid payment ID format", "Received payment ID: " + paymentId))
    else
      Ok(paymentId)
  }
}
