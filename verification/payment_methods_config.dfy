/** The payment-method settings (src/components/settings/PaymentMethodsConfig.tsx):
    the list of methods, the switch that enables or disables one, and which
    parts of a method's card are shown. */
module PaymentMethodsConfig {

  /** An input a method needs before it can take payments. */
  datatype ConfigField = ConfigField(name: string, placeholder: string, kind: string)

  /** A payment method; its icon is left out. */
  datatype PaymentMethod = PaymentMethod(
    id: string, name: string, enabled: bool, requiresConfig: bool, configFields: seq<ConfigField>)

  /** `togglePaymentMethod`: the methods with the id have their switch
      flipped; every other method, and every other field, stays. */
  function Toggle(methods: seq<PaymentMethod>, id: string): (r: seq<PaymentMethod>)
    ensures |r| == |methods|
    ensures forall i :: 0 <= i < |methods| ==>
              r[i].enabled == (if methods[i].id == id then !methods[i].enabled else methods[i].enabled) &&
              r[i].(enabled := methods[i].enabled) == methods[i]
  {
    seq(|methods|, i requires 0 <= i < |methods| =>
      if methods[i].id == id then methods[i].(enabled := !methods[i].enabled) else methods[i])
  }

  /** Flipping the same switch twice restores the list. */
  lemma ToggleTwice(methods: seq<PaymentMethod>, id: string)
    ensures Toggle(Toggle(methods, id), id) == methods
  {
    var r := Toggle(Toggle(methods, id), id);
    forall i | 0 <= i < |methods| ensures r[i] == methods[i] {
      assert Toggle(methods, id)[i].id == methods[i].id;
    }
  }

  /** An id no method has changes nothing. */
  lemma ToggleUnknown(methods: seq<PaymentMethod>, id: string)
    requires forall i :: 0 <= i < |methods| ==> methods[i].id != id
    ensures Toggle(methods, id) == methods
  {
    var r := Toggle(methods, id);
    forall i | 0 <= i < |methods| ensures r[i] == methods[i] {
      assert r[i].(enabled := methods[i].enabled) == methods[i];
    }
  }

  /** The configuration inputs are shown for an enabled method that needs
      them. */
  predicate ShowsConfig(m: PaymentMethod) {
    m.enabled && m.requiresConfig
  }

  /** The "activate to configure" hint is shown for a disabled method. */
  predicate ShowsHint(m: PaymentMethod) {
    !m.enabled
  }

  /** A card shows the inputs or the hint, never both; one that needs no
      configuration and is enabled shows neither. Toggling a method that
      needs configuration swaps which one it shows. */
  lemma CardShowsOneSection(m: PaymentMethod)
    ensures !(ShowsConfig(m) && ShowsHint(m))
    ensures !ShowsConfig(m) && !ShowsHint(m) <==> m.enabled && !m.requiresConfig
    ensures m.requiresConfig ==>
              (ShowsConfig(m.(enabled := !m.enabled)) <==> ShowsHint(m))
  {
  }

  /** The methods the page starts with. */
  function InitialMethods(): seq<PaymentMethod> {
    var phone := ConfigField("phoneNumber", "Nomor Telepon Terdaftar", "tel");
    [PaymentMethod("cash", "Tunai", true, false, []),
     PaymentMethod("gopay", "GoPay", true, true, [ConfigField("merchantId", "ID Merchant GoPay", "text"), phone]),
     PaymentMethod("ovo", "OVO", false, true, [ConfigField("merchantId", "ID Merchant OVO", "text"), phone]),
     PaymentMethod("dana", "DANA", false, true, [ConfigField("merchantId", "ID Merchant DANA", "text"), phone]),
     PaymentMethod("qris", "QRIS", true, true, [ConfigField("merchantId", "ID Merchant QRIS", "text")]),
     PaymentMethod("bank_transfer", "Transfer Bank", false, true,
       [ConfigField("bankName", "Nama Bank", "text"), ConfigField("accountNumber", "Nomor Rekening", "text"),
        ConfigField("accountName", "Nama Pemilik Rekening", "text")]),
     PaymentMethod("linkaja", "LinkAja", false, true, [ConfigField("merchantId", "ID Merchant LinkAja", "text"), phone])]
  }

  /** The page's state: the list of methods. */
  class Config {
    var paymentMethods: seq<PaymentMethod>

    constructor ()
      ensures paymentMethods == InitialMethods()
    {
      paymentMethods := InitialMethods();
    }

    /** The switch of one method's card. */
    method TogglePaymentMethod(id: string)
      modifies this
      ensures paymentMethods == Toggle(old(paymentMethods), id)
    {
      paymentMethods := Toggle(paymentMethods, id);
    }
  }
}
