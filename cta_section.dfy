/** The call-to-action buttons on the impact page ("join as a restaurant",
    "join as a consumer") and what a click does for each kind of visitor. */
module CtaSection {
  import opened Wrappers
  import opened Types

  datatype CtaButton = RestaurantButton | ConsumerButton

  /** What a click does: open the sign-in dialog (when the page was given
      a way to), show an alert, or nothing. */
  datatype CtaEffect = AuthPrompt | Alert(message: string) | NoEffect

  const ContactAdmin := "Contact Administration to become a restaurant."
  const AlreadyIn := "You already logged in!"

  /** `handleButtons`. The restaurant button alerts a signed-in visitor whose
      role is not restaurant and prompts everyone else; the consumer button
      prompts a visitor without a profile and alerts everyone else. */
  function HandleButtons(button: CtaButton, profile: Option<User>, hasAuthClick: bool): (r: CtaEffect)
    ensures button == RestaurantButton && profile.Some? && profile.value.role != Restaurant ==> r == Alert(ContactAdmin)
    ensures button == RestaurantButton && (profile.None? || profile.value.role == Restaurant) ==>
      r == (if hasAuthClick then AuthPrompt else NoEffect)
    ensures button == ConsumerButton && profile.None? ==> r == (if hasAuthClick then AuthPrompt else NoEffect)
    ensures button == ConsumerButton && profile.Some? ==> r == Alert(AlreadyIn)
  {
    match button
    case RestaurantButton =>
      if profile.Some? && profile.value.role != Restaurant then Alert(ContactAdmin)
      else if hasAuthClick then AuthPrompt
      else NoEffect
    case ConsumerButton =>
      if profile.None? then (if hasAuthClick then AuthPrompt else NoEffect)
      else Alert(AlreadyIn)
  }

  /** A click never both prompts and alerts, and a signed-in visitor is
      prompted only by the restaurant button and only with a restaurant
      profile. */
  lemma PromptOnlyWhenSignedOutOrRestaurant(button: CtaButton, profile: Option<User>)
    ensures HandleButtons(button, profile, true) == AuthPrompt <==>
      profile.None? || (button == RestaurantButton && profile.value.role == Restaurant)
    ensures HandleButtons(button, profile, true).Alert? <==> !(HandleButtons(button, profile, true) == AuthPrompt)
  {
  }
}
