/** The order status enumerations, identical in the frontend (services/api.ts)
    and the backend (entity PaymentStatus, TrackingStatus). */
module OrderStatus {

  datatype PaymentStatus = Unpaid | Paid | Refunded | Failed

  datatype TrackingStatus = NotShipped | Shipped | InTransit | Delivered | Returned
}
