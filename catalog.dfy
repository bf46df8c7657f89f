/** The twenty sample products that all three copies start from (the browser's
    offline fallback, the C++ `initializeSampleData` and the Flask module-level list). */
module Catalog {

  /** One sample product, without its id (the id is its 1-based position). */
  datatype Entry = Entry(name: string, category: string, price: real, quantity: int, perishable: bool, expiry: string)

  const Entries: seq<Entry> := [
    Entry("Alphonso Mangoes (Maharashtra)", "Fruits", 180.0, 15, true, "2025-11-15"),
    Entry("Amul Whole Milk", "Dairy", 55.0, 25, true, "2025-11-12"),
    Entry("Basmati Rice (Dehra Dun)", "Grains", 180.0, 30, false, ""),
    Entry("Fresh Chicken Breast", "Meat", 280.0, 8, true, "2025-11-11"),
    Entry("Canned Beans (Indian)", "Canned Goods", 45.0, 45, false, ""),
    Entry("Amul Greek Yogurt", "Dairy", 120.0, 3, true, "2025-11-14"),
    Entry("Wheat Flour (Aata)", "Grains", 50.0, 50, false, ""),
    Entry("Fresh Spinach (Himalayan)", "Vegetables", 50.0, 4, true, "2025-11-11"),
    Entry("Sunflower Oil (Refined)", "Oils", 200.0, 20, false, ""),
    Entry("Frooti Orange Juice", "Beverages", 40.0, 2, true, "2025-11-13"),
    Entry("Multigrain Bread", "Bakery", 60.0, 15, true, "2025-11-12"),
    Entry("Assam Tea", "Beverages", 400.0, 5, false, ""),
    Entry("Strawberries (Kashmir)", "Fruits", 250.0, 6, true, "2025-11-11"),
    Entry("Peanut Butter (Creamy)", "Condiments", 250.0, 15, false, ""),
    Entry("Fresh Tomatoes (Nashik)", "Vegetables", 45.0, 20, true, "2025-11-15"),
    Entry("Paneer (Amul)", "Dairy", 380.0, 12, true, "2025-11-13"),
    Entry("Arhar Dal", "Pulses", 140.0, 25, false, ""),
    Entry("Garam Masala", "Spices", 180.0, 10, false, ""),
    Entry("Hilsa Fish", "Meat", 500.0, 5, true, "2025-11-11"),
    Entry("Coconut Oil (Virgin/Kerala)", "Oils", 280.0, 18, false, "")
  ]

  /** Every sample product has a non-empty name and category, a non-negative price and
      stock, and carries an expiry date exactly when it is perishable. */
  predicate WellFormed(e: Entry)
  {
    e.name != "" && e.category != "" && e.price >= 0.0 && e.quantity >= 0
    && (e.perishable <==> e.expiry != "")
  }

  lemma EntriesWellFormed()
    ensures |Entries| == 20
    ensures forall k :: 0 <= k < |Entries| ==> WellFormed(Entries[k])
  {
  }
}
