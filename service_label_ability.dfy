/**
 * The ServiceLabel ability: the service that tells HomeKit how the buttons
 * of a multi-button accessory are numbered.
 */
module ServiceLabelAbility {
  import opened Host
  import opened Device

  /** The naming schema when none is given. */
  const DefaultNamespace: string := "arabicNumerals"

  /** `'dots'` selects dots; anything else selects Arabic numerals. */
  function NamespaceFor(namespace: string): (v: NamespaceValue)
    ensures v == DotsNamespace <==> namespace == "dots"
    ensures v == ArabicNumeralsNamespace <==> namespace != "dots"
  {
    if namespace == "dots" then DotsNamespace else ArabicNumeralsNamespace
  }

  /** The ability subscribes to nothing. */
  const Events: set<Event> := {}

  /** `initialize()`: publishes the namespace and nothing else. */
  method Initialize(s: Service, namespace: string)
    modifies s`values, s`updates
    ensures s.values == old(s.values)[ServiceLabelNamespace := NamespaceOf(NamespaceFor(namespace))]
    ensures s.updates == old(s.updates) + [(ServiceLabelNamespace, NamespaceOf(NamespaceFor(namespace)))]
  {
    s.Set(ServiceLabelNamespace, NamespaceOf(NamespaceFor(namespace)));
  }
}
